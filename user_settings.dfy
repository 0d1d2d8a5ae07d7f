/** The per-user settings store and its four routes. Settings are JSON
    objects; the store is a list of entries, one per user, updated in place.
    The instant `now` (milliseconds) is a parameter. */
module UserSettings {
  import opened Text
  import opened Lists
  import opened Http

  // ----- JSON values -----

  /** A JSON value as the routes see it; numbers are exact. */
  datatype Json =
    | JNull
    | JBool(b: bool)
    | JNumber(n: real)
    | JString(s: string)
    | JObject(fields: map<string, Json>)

  /** JavaScript truthiness of a present value. */
  predicate Truthy(j: Json) {
    match j
    case JNull => false
    case JBool(b) => b
    case JNumber(n) => n != 0.0
    case JString(s) => s != ""
    case JObject(_) => true
  }

  /** A settings object: its top-level properties. */
  type Settings = map<string, Json>

  /** `o[key]`, absent when missing. */
  function Lookup(o: Settings, key: string): Option<Json> {
    if key in o then Some(o[key]) else None
  }

  /** `j.key` for any value: only an object has properties. */
  function Property(j: Json, key: string): Option<Json> {
    if j.JObject? then Lookup(j.fields, key) else None
  }

  /** The properties `{ ...v }` copies: those of an object, none otherwise. */
  function Spread(v: Option<Json>): map<string, Json> {
    if v.Some? && v.value.JObject? then v.value.fields else map[]
  }

  /** `getDefaultSettings()`: speech on with the 'nova' voice at 0.95 speed,
      and a balanced, professional tone. */
  const DefaultSettings: Settings := map[
    "tts" := JObject(map["enabled" := JBool(true), "voice" := JString("nova"), "speed" := JNumber(0.95)]),
    "empathy" := JObject(map["level" := JString("balanced"), "tone" := JString("professional")])
  ]

  // ----- POST validation -----

  /** The checks of the POST route on the body's `settings`, in their order:
      it must be truthy and carry truthy `tts` and `empathy` properties. */
  function CheckSettings(settings: Option<Json>): (r: Outcome<Settings>)
    ensures (settings.None? || !Truthy(settings.value)) ==> r == Err(400, "Settings data is required")
    ensures r.Ok? <==>
              settings.Some? && Truthy(settings.value)
              && Property(settings.value, "tts").Some? && Truthy(Property(settings.value, "tts").value)
              && Property(settings.value, "empathy").Some? && Truthy(Property(settings.value, "empathy").value)
    ensures r.Ok? ==> settings.value == JObject(r.value) && "tts" in r.value && "empathy" in r.value
    ensures r.Err? && settings.Some? && Truthy(settings.value) ==>
              r == Err(400, "Invalid settings structure. Must include tts and empathy.")
  {
    if settings.None? || !Truthy(settings.value) then Err(400, "Settings data is required")
    else
      var tts := Property(settings.value, "tts");
      var empathy := Property(settings.value, "empathy");
      if tts.None? || !Truthy(tts.value) || empathy.None? || !Truthy(empathy.value) then
        Err(400, "Invalid settings structure. Must include tts and empathy.")
      else Ok(settings.value.fields)
  }

  /** The defaults would pass the POST checks. */
  lemma DefaultsAreWellFormed()
    ensures CheckSettings(Some(JObject(DefaultSettings))) == Ok(DefaultSettings)
  {
    assert Property(JObject(DefaultSettings), "tts") == Some(DefaultSettings["tts"]);
    assert Property(JObject(DefaultSettings), "empathy") == Some(DefaultSettings["empathy"]);
  }

  // ----- the PATCH merge -----

  /** `{ ...base, ...patch, tts: { ...base.tts, ...(patch.tts || {}) },
      empathy: { ...base.empathy, ...(patch.empathy || {}) } }`. */
  function MergeSettings(base: Settings, patch: Settings): Settings {
    base + patch
    + map["tts" := JObject(Spread(Lookup(base, "tts")) + Spread(Lookup(patch, "tts"))),
          "empathy" := JObject(Spread(Lookup(base, "empathy")) + Spread(Lookup(patch, "empathy")))]
  }

  /** One of the two nested settings objects after the merge: a key the patch
      sends wins, any other key keeps its stored value. */
  ghost predicate MergedSection(r: Settings, base: Settings, patch: Settings, section: string) {
    section in r && r[section].JObject?
    && r[section].fields.Keys == Spread(Lookup(base, section)).Keys + Spread(Lookup(patch, section)).Keys
    && (forall k :: k in Spread(Lookup(patch, section)) ==> r[section].fields[k] == Spread(Lookup(patch, section))[k])
    && (forall k :: k in Spread(Lookup(base, section)) && k !in Spread(Lookup(patch, section))
                    ==> r[section].fields[k] == Spread(Lookup(base, section))[k])
  }

  /** What the merge promises: both sections are merged key by key, and every
      other top-level key is the patch's value if sent, else the stored one. */
  lemma MergeSettingsFacts(base: Settings, patch: Settings)
    ensures MergedSection(MergeSettings(base, patch), base, patch, "tts")
    ensures MergedSection(MergeSettings(base, patch), base, patch, "empathy")
    ensures forall k :: k !in {"tts", "empathy"} ==>
              (k in MergeSettings(base, patch) <==> k in base || k in patch)
    ensures forall k :: k !in {"tts", "empathy"} && k in patch ==> MergeSettings(base, patch)[k] == patch[k]
    ensures forall k :: k !in {"tts", "empathy"} && k in base && k !in patch ==> MergeSettings(base, patch)[k] == base[k]
  {
  }

  /** Sending the same patch twice leaves what sending it once left. */
  lemma MergeSettingsIdempotent(base: Settings, patch: Settings)
    ensures MergeSettings(MergeSettings(base, patch), patch) == MergeSettings(base, patch)
  {
    var once := MergeSettings(base, patch);
    var twice := MergeSettings(once, patch);
    SectionTwice(base, patch, "tts");
    SectionTwice(base, patch, "empathy");
    assert twice.Keys == once.Keys;
    forall k | k in once ensures twice[k] == once[k] {
    }
  }

  /** Merging a section with the same patch again adds nothing. */
  lemma SectionTwice(base: Settings, patch: Settings, section: string)
    requires section in {"tts", "empathy"}
    ensures Spread(Lookup(MergeSettings(base, patch), section)) + Spread(Lookup(patch, section))
            == Spread(Lookup(MergeSettings(base, patch), section))
  {
    var merged := Spread(Lookup(base, section)) + Spread(Lookup(patch, section));
    assert Lookup(MergeSettings(base, patch), section) == Some(JObject(merged));
    assert merged + Spread(Lookup(patch, section)) == merged;
  }

  /** An empty patch leaves settings whose sections are objects as they are. */
  lemma EmptyPatchKeeps(base: Settings)
    requires "tts" in base && base["tts"].JObject? && "empathy" in base && base["empathy"].JObject?
    ensures MergeSettings(base, map[]) == base
  {
    var tts := base["tts"].fields;
    var empathy := base["empathy"].fields;
    assert Spread(Lookup(base, "tts")) + Spread(Lookup(map[], "tts")) == tts;
    assert Spread(Lookup(base, "empathy")) + Spread(Lookup(map[], "empathy")) == empathy;
    assert base + map[] == base;
    assert base["tts" := JObject(tts)]["empathy" := JObject(empathy)] == base;
  }

  // ----- the store -----

  datatype SettingsEntry = SettingsEntry(userEmail: string, settings: Settings, updatedAt: int, createdAt: int)

  predicate UniqueUsers(entries: seq<SettingsEntry>) {
    forall i, j :: 0 <= i < j < |entries| ==> entries[i].userEmail != entries[j].userEmail
  }

  /** `findIndex(s => s.userEmail === userEmail)`, as a position. */
  function EntryIndex(entries: seq<SettingsEntry>, userEmail: string): (r: Option<nat>)
    ensures r.Some? ==> r.value < |entries| && entries[r.value].userEmail == userEmail
                        && forall k :: 0 <= k < r.value ==> entries[k].userEmail != userEmail
    ensures r.None? ==> forall k :: 0 <= k < |entries| ==> entries[k].userEmail != userEmail
  {
    FindFirst(entries, (e: SettingsEntry) => e.userEmail == userEmail)
  }

  /** An entry of the user with none before it is the one found. */
  lemma EntryIndexAt(entries: seq<SettingsEntry>, userEmail: string, k: int)
    requires 0 <= k < |entries| && entries[k].userEmail == userEmail
    requires forall j :: 0 <= j < k ==> entries[j].userEmail != userEmail
    ensures EntryIndex(entries, userEmail) == Some(k)
  {
  }

  /** The entries after `saveUserSettings(userEmail, settings)` at `now`: the
      user's entry is replaced in place, keeping its creation time, or a new
      entry is appended. */
  function Saving(entries: seq<SettingsEntry>, userEmail: string, settings: Settings, now: int): seq<SettingsEntry> {
    var k := EntryIndex(entries, userEmail);
    if k.Some? then entries[k.value := SettingsEntry(userEmail, settings, now, entries[k.value].createdAt)]
    else entries + [SettingsEntry(userEmail, settings, now, now)]
  }

  /** Saving one user's settings finds every other user's entry where it was,
      unchanged, and finds none for a user who had none. */
  lemma SavingKeepsOthers(entries: seq<SettingsEntry>, userEmail: string, settings: Settings, now: int, other: string)
    requires other != userEmail
    ensures var after := Saving(entries, userEmail, settings, now);
            EntryIndex(after, other) == EntryIndex(entries, other)
            && (EntryIndex(entries, other).Some? ==>
                  after[EntryIndex(entries, other).value] == entries[EntryIndex(entries, other).value])
  {
    var after := Saving(entries, userEmail, settings, now);
    assert forall j :: 0 <= j < |entries| ==> after[j].userEmail == entries[j].userEmail;
    assert |after| > |entries| ==> after[|entries|].userEmail == userEmail;
    var found := EntryIndex(entries, other);
    if found.Some? {
      EntryIndexAt(after, other, found.value);
    } else {
      assert forall j :: 0 <= j < |after| ==> after[j].userEmail != other;
    }
  }

  class SettingsStore {
    var entries: seq<SettingsEntry>

    /** No user has two entries. */
    ghost predicate Valid()
      reads this
    {
      UniqueUsers(entries)
    }

    constructor()
      ensures entries == [] && Valid()
    {
      entries := [];
    }

    /** `getUserSettings(userEmail)`: the first entry of the user, if any. */
    function Get(userEmail: string): (r: Option<SettingsEntry>)
      reads this
      ensures r.Some? <==> exists k :: 0 <= k < |entries| && entries[k].userEmail == userEmail
      ensures r.Some? ==> r.value in entries && r.value.userEmail == userEmail
    {
      var k := EntryIndex(entries, userEmail);
      if k.Some? then Some(entries[k.value]) else None
    }

    /** `saveUserSettings(userEmail, settings)`: the user's entry is replaced in
        place, keeping its creation time, or a new entry is appended. Every
        other entry stays where it is, and no user gets a second entry. */
    method Save(userEmail: string, settings: Settings, now: int) returns (saved: SettingsEntry)
      requires Valid()
      modifies this
      ensures Valid()
      ensures saved.userEmail == userEmail && saved.settings == settings && saved.updatedAt == now
      ensures EntryIndex(old(entries), userEmail).Some? ==>
                var k := EntryIndex(old(entries), userEmail).value;
                saved.createdAt == old(entries)[k].createdAt && entries == old(entries)[k := saved]
      ensures EntryIndex(old(entries), userEmail).None? ==>
                saved.createdAt == now && entries == old(entries) + [saved]
      ensures Get(userEmail) == Some(saved)
      ensures entries == Saving(old(entries), userEmail, settings, now)
    {
      var existing := EntryIndex(entries, userEmail);
      if existing.Some? {
        var k := existing.value;
        saved := SettingsEntry(userEmail, settings, now, entries[k].createdAt);
        entries := entries[k := saved];
        EntryIndexAt(entries, userEmail, k);
      } else {
        saved := SettingsEntry(userEmail, settings, now, now);
        entries := entries + [saved];
        EntryIndexAt(entries, userEmail, |entries| - 1);
      }
    }

    /** `deleteUserSettings(userEmail)`: every entry of the user goes, the
        others stay in order. */
    method Delete(userEmail: string)
      requires Valid()
      modifies this
      ensures Valid()
      ensures entries == Filter(old(entries), (e: SettingsEntry) => e.userEmail != userEmail)
      ensures forall e :: e in entries <==> e in old(entries) && e.userEmail != userEmail
      ensures Get(userEmail).None?
    {
      var p := (e: SettingsEntry) => e.userEmail != userEmail;
      FilterMembers(entries, p);
      FilterKeepsUnique(entries, p);
      entries := Filter(entries, p);
      forall k | 0 <= k < |entries| ensures entries[k].userEmail != userEmail {
        assert entries[k] in entries;
      }
    }

    /** GET `/:userEmail`: the stored settings, or the defaults. */
    function GetRoute(userEmail: string): (r: Outcome<Settings>)
      reads this
      ensures userEmail == "" ==> r == Err(400, "User email is required")
      ensures userEmail != "" && Get(userEmail).Some? ==> r == Ok(Get(userEmail).value.settings)
      ensures userEmail != "" && Get(userEmail).None? ==> r == Ok(DefaultSettings)
    {
      if userEmail == "" then Err(400, "User email is required")
      else
        var stored := Get(userEmail);
        Ok(if stored.Some? then stored.value.settings else DefaultSettings)
    }

    /** POST `/:userEmail`: well-formed settings replace the user's settings
        whole; anything else is refused and nothing changes. */
    method PostRoute(userEmail: string, settings: Option<Json>, now: int) returns (r: Outcome<Settings>)
      requires Valid()
      modifies this
      ensures Valid()
      ensures r.Err? ==> unchanged(this)
      ensures userEmail == "" ==> r == Err(400, "User email is required")
      ensures userEmail != "" ==>
                var check := CheckSettings(settings);
                (check.Err? ==> r == check)
                && (check.Ok? ==> r == check && Get(userEmail).Some? && Get(userEmail).value.settings == check.value
                                  && entries == Saving(old(entries), userEmail, check.value, now))
      ensures forall e :: e != userEmail ==> Get(e) == old(Get(e))
    {
      if userEmail == "" {
        return Err(400, "User email is required");
      }
      var check := CheckSettings(settings);
      if check.Err? {
        return check;
      }
      ghost var before := entries;
      var saved := Save(userEmail, check.value, now);
      r := Ok(saved.settings);
      forall e | e != userEmail ensures Get(e) == old(Get(e)) {
        SavingKeepsOthers(before, userEmail, check.value, now, e);
      }
    }

    /** DELETE `/:userEmail`. */
    method DeleteRoute(userEmail: string) returns (r: Outcome<string>)
      requires Valid()
      modifies this
      ensures Valid()
      ensures userEmail == "" ==> r == Err(400, "User email is required") && unchanged(this)
      ensures userEmail != "" ==> r == Ok("Settings deleted successfully") && Get(userEmail).None?
                                  && forall e :: e in entries <==> e in old(entries) && e.userEmail != userEmail
    {
      if userEmail == "" {
        return Err(400, "User email is required");
      }
      Delete(userEmail);
      r := Ok("Settings deleted successfully");
    }

    /** PATCH `/:userEmail`: the patch is merged onto the stored settings, or
        onto the defaults when the user has none, and the result is saved. A
        missing patch makes the route fail before anything is written. */
    method PatchRoute(userEmail: string, patch: Option<Settings>, now: int) returns (r: Outcome<Settings>)
      requires Valid()
      modifies this
      ensures Valid()
      ensures r.Err? ==> unchanged(this)
      ensures userEmail == "" ==> r == Err(400, "User email is required")
      ensures userEmail != "" && patch.None? ==> r == Err(500, "Failed to update settings")
      ensures userEmail != "" && patch.Some? ==>
                var base := if old(Get(userEmail)).Some? then old(Get(userEmail)).value.settings else DefaultSettings;
                r == Ok(MergeSettings(base, patch.value))
                && Get(userEmail).Some? && Get(userEmail).value.settings == r.value
                && entries == Saving(old(entries), userEmail, r.value, now)
      ensures forall e :: e != userEmail ==> Get(e) == old(Get(e))
    {
      if userEmail == "" {
        return Err(400, "User email is required");
      }
      var stored := Get(userEmail);
      if patch.None? {
        return Err(500, "Failed to update settings");
      }
      var base := if stored.Some? then stored.value.settings else DefaultSettings;
      ghost var before := entries;
      var saved := Save(userEmail, MergeSettings(base, patch.value), now);
      r := Ok(saved.settings);
      forall e | e != userEmail ensures Get(e) == old(Get(e)) {
        SavingKeepsOthers(before, userEmail, saved.settings, now, e);
      }
    }
  }

  /** Filtering keeps the users of the entries left unique. */
  lemma {:induction false} FilterKeepsUnique(entries: seq<SettingsEntry>, p: SettingsEntry -> bool)
    requires UniqueUsers(entries)
    ensures UniqueUsers(Filter(entries, p))
    decreases |entries|
  {
    if entries != [] {
      FilterKeepsUnique(entries[1..], p);
      FilterMembers(entries[1..], p);
      if p(entries[0]) {
        var rest := Filter(entries[1..], p);
        forall j | 0 <= j < |rest| ensures rest[j].userEmail != entries[0].userEmail {
          assert rest[j] in entries[1..];
        }
      }
    }
  }
}
