/**
 * The defaults transformer of pkg/deploy/spindeploy/transformer/defaults.go:
 * for every Java service of the bill of materials, make sure the service's
 * profile exists and that its `archaius` object carries an `enabled` key,
 * `false` when the user gave none. Profiles are free-form JSON objects, so
 * their values are the `Value`s of the reflection model.
 */
module ArchaiusDefaults {
  import opened Wrappers
  import opened Values

  /** interfaces.FreeForm: one service profile. */
  type Profile = map<string, Value>

  /** The contents of SpinnakerConfig.Profiles, by service name. */
  type Profiles = map<string, Profile>

  /** Whether a profile already has an object `archaius` holding an `enabled` key. */
  predicate Settled(p: Profile)
  {
    "archaius" in p && IsObject(p["archaius"]) && "enabled" in p["archaius"].entries
  }

  /** What setArchaiusDefaultsForProfile makes of one profile. */
  function DefaultedProfile(p: Profile): (r: Result<Profile, Error>)
    // it fails exactly when `archaius` is there and is not an object
    ensures r.Err? <==> "archaius" in p && !IsObject(p["archaius"])
    ensures r.Err? ==> r.error == ArchaiusNotObject
    // on success the profile is settled ...
    ensures r.Ok? ==> Settled(r.value)
    // ... an already settled profile is left alone ...
    ensures Settled(p) ==> r == Ok(p)
    // ... and only `archaius.enabled` is ever added, as false
    ensures r.Ok? ==> r.value.Keys == p.Keys + {"archaius"}
    ensures r.Ok? ==> forall k :: k in p && k != "archaius" ==> r.value[k] == p[k]
    ensures r.Ok? && "archaius" in p ==>
              r.value["archaius"].entries.Keys == p["archaius"].entries.Keys + {"enabled"} &&
              forall k :: k in p["archaius"].entries ==>
                r.value["archaius"].entries[k] == p["archaius"].entries[k]
    ensures r.Ok? && !Settled(p) ==> r.value["archaius"].entries["enabled"] == Bool(false)
    ensures r.Ok? && "archaius" !in p ==> r.value["archaius"].entries.Keys == {"enabled"}
  {
    if "archaius" !in p then
      Ok(p["archaius" := Map(TAny, map["enabled" := Bool(false)])])
    else
      var archaius := p["archaius"];
      if !IsObject(archaius) then Err(ArchaiusNotObject)
      else if "enabled" in archaius.entries then Ok(p)
      else Ok(p["archaius" := Map(TAny, archaius.entries["enabled" := Bool(false)])])
  }

  /** What assertProfile makes of the table (None is a nil Profiles map). */
  function AssertedTable(t: Option<Profiles>, name: string): (r: Profiles)
    ensures name in r
    ensures t.Some? && name in t.value ==> r == t.value
    ensures t.None? || name !in t.value ==> r[name] == map[]
    ensures forall n :: n != name ==> (n in r <==> t.Some? && n in t.value)
    ensures forall n :: n != name && n in r ==> r[n] == t.value[n]
  {
    var m := if t.None? then map[] else t.value;
    if name in m then m else m[name := map[]]
  }

  /**
   * What setArchaiusDefaults makes of the table, for the service names in
   * order: the new table, and the error of the first profile that failed.
   */
  function DefaultAll(t: Option<Profiles>, names: seq<string>): (r: (Option<Profiles>, Option<Error>))
    ensures |names| > 0 ==> r.0.Some?
    ensures |names| == 0 ==> r == (t, None)
    decreases |names|
  {
    if |names| == 0 then (t, None)
    else
      var m := AssertedTable(t, names[0]);
      match DefaultedProfile(m[names[0]])
      case Err(e) => (Some(m), Some(ProfileFailed(names[0], e)))
      case Ok(p) => DefaultAll(Some(m[names[0] := p]), names[1..])
  }

  /** The part of interfaces.SpinnakerConfig the transformer changes. */
  class SpinnakerConfig {
    var profiles: Option<Profiles>

    constructor (profiles: Option<Profiles>)
      ensures this.profiles == profiles
    {
      this.profiles := profiles;
    }

    /** assertProfile: the profile `name`, created empty (and the table with it) when missing. */
    method AssertProfile(name: string) returns (p: Profile)
      modifies this
      ensures profiles == Some(AssertedTable(old(profiles), name))
      ensures p == profiles.value[name]
    {
      if profiles.None? {
        profiles := Some(map[]);
      }
      if name in profiles.value {
        return profiles.value[name];
      }
      p := map[];
      profiles := Some(profiles.value[name := p]);
    }

    /**
     * setArchaiusDefaultsForProfile on the stored profile `name`; the Go code
     * updates that profile through an alias, here it is written back.
     */
    method SetArchaiusDefaultsForProfile(name: string) returns (err: Option<Error>)
      requires profiles.Some? && name in profiles.value
      modifies this
      ensures DefaultedProfile(old(profiles.value[name])).Err? ==>
                err == Some(DefaultedProfile(old(profiles.value[name])).error) &&
                profiles == old(profiles)
      ensures DefaultedProfile(old(profiles.value[name])).Ok? ==>
                err.None? &&
                profiles == Some(old(profiles.value)[name := DefaultedProfile(old(profiles.value[name])).value])
    {
      var profile := profiles.value[name];
      if "archaius" !in profile {
        var archaius := map["enabled" := Bool(false)];
        profile := profile["archaius" := Map(TAny, archaius)];
        profiles := Some(profiles.value[name := profile]);
        return None;
      }
      var archaius := profile["archaius"];
      if !IsObject(archaius) {
        return Some(ArchaiusNotObject);
      }
      if "enabled" in archaius.entries {
        assert profiles.value[name := profile] == profiles.value;
        return None;
      }
      profile := profile["archaius" := Map(TAny, archaius.entries["enabled" := Bool(false)])];
      profiles := Some(profiles.value[name := profile]);
      return None;
    }

    /** setArchaiusDefaults for the given Java services (bom.JavaServices()). */
    method SetArchaiusDefaults(services: seq<string>) returns (err: Option<Error>)
      modifies this
      ensures (profiles, err) == DefaultAll(old(profiles), services)
    {
      for i := 0 to |services|
        invariant DefaultAll(profiles, services[i..]) == DefaultAll(old(profiles), services)
      {
        var name := services[i];
        assert services[i..][1..] == services[i + 1..];
        var _ := AssertProfile(name);
        var e := SetArchaiusDefaultsForProfile(name);
        if e.Some? {
          return Some(ProfileFailed(name, e.value));
        }
      }
      err := None;
    }

    /** TransformConfig: setArchaiusDefaults, its error wrapped. */
    method TransformConfig(services: seq<string>) returns (err: Option<Error>)
      modifies this
      ensures profiles == DefaultAll(old(profiles), services).0
      ensures DefaultAll(old(profiles), services).1.None? ==> err.None?
      ensures DefaultAll(old(profiles), services).1.Some? ==>
                err == Some(ArchaiusFailed(DefaultAll(old(profiles), services).1.value))
    {
      var e := SetArchaiusDefaults(services);
      if e.Some? {
        return Some(ArchaiusFailed(e.value));
      }
      return None;
    }
  }

  /** Profiles of services not in the list are neither added, removed nor changed. */
  lemma {:induction false} OtherProfilesUntouched(t: Option<Profiles>, names: seq<string>, n: string)
    requires n !in names
    ensures var r := DefaultAll(t, names).0;
            (r.Some? && n in r.value <==> t.Some? && n in t.value) &&
            (r.Some? && n in r.value ==> r.value[n] == t.value[n])
    decreases |names|
  {
    if |names| > 0 {
      var m := AssertedTable(t, names[0]);
      if DefaultedProfile(m[names[0]]).Ok? {
        OtherProfilesUntouched(Some(m[names[0] := DefaultedProfile(m[names[0]]).value]), names[1..], n);
      }
    }
  }

  /** A settled profile stays present and unchanged, whatever is defaulted after it. */
  lemma {:induction false} SettledStays(t: Option<Profiles>, names: seq<string>, n: string)
    requires t.Some? && n in t.value && Settled(t.value[n])
    ensures var r := DefaultAll(t, names).0;
            r.Some? && n in r.value && r.value[n] == t.value[n]
    decreases |names|
  {
    if |names| > 0 {
      var m := AssertedTable(t, names[0]);
      if DefaultedProfile(m[names[0]]).Ok? {
        SettledStays(Some(m[names[0] := DefaultedProfile(m[names[0]]).value]), names[1..], n);
      }
    }
  }

  /** When no error is reported, every listed service has a profile whose `archaius.enabled` is set. */
  lemma {:induction false} SuccessSettlesAll(t: Option<Profiles>, names: seq<string>)
    requires DefaultAll(t, names).1.None?
    ensures var r := DefaultAll(t, names).0;
            forall n :: n in names ==> r.Some? && n in r.value && Settled(r.value[n])
    decreases |names|
  {
    if |names| > 0 {
      var m := AssertedTable(t, names[0]);
      var p := DefaultedProfile(m[names[0]]).value;
      var t' := Some(m[names[0] := p]);
      SuccessSettlesAll(t', names[1..]);
      SettledStays(t', names[1..], names[0]);
      forall n | n in names
        ensures DefaultAll(t, names).0.Some? && n in DefaultAll(t, names).0.value &&
                Settled(DefaultAll(t, names).0.value[n])
      {
        if n != names[0] {
          assert n in names[1..];
        }
      }
    }
  }

  /**
   * The first failing service stops the run: the table is what the services
   * before it made of it (that service's own profile unchanged, the later
   * ones untouched), and the error names the failing service.
   */
  lemma {:induction false} FirstErrorStops(t: Option<Profiles>, names: seq<string>) returns (i: nat)
    ensures i <= |names|
    ensures DefaultAll(t, names[..i]).1.None?
    ensures i == |names| ==> DefaultAll(t, names).1.None?
    ensures i < |names| ==>
              DefaultAll(t, names) ==
              (DefaultAll(t, names[..i]).0, Some(ProfileFailed(names[i], ArchaiusNotObject)))
    decreases |names|
  {
    if |names| == 0 {
      return 0;
    }
    var m := AssertedTable(t, names[0]);
    match DefaultedProfile(m[names[0]])
    case Err(e) =>
      assert names[..0] == [];
      return 0;
    case Ok(p) =>
      var j := FirstErrorStops(Some(m[names[0] := p]), names[1..]);
      i := j + 1;
      assert names[..i][0] == names[0];
      assert names[..i][1..] == names[1..][..j];
  }

  /** Running the transformer twice gives what running it once gives. */
  lemma {:induction false} DefaultAllIdempotent(t: Option<Profiles>, names: seq<string>)
    ensures DefaultAll(DefaultAll(t, names).0, names) == DefaultAll(t, names)
    decreases |names|
  {
    if |names| > 0 {
      var n := names[0];
      var m := AssertedTable(t, n);
      match DefaultedProfile(m[n])
      case Err(e) =>
        assert AssertedTable(Some(m), n) == m;
      case Ok(p) =>
        var t' := Some(m[n := p]);
        var r := DefaultAll(t', names[1..]).0;
        SettledStays(t', names[1..], n);
        DefaultAllIdempotent(t', names[1..]);
        assert AssertedTable(r, n) == r.value;
        assert r.value[n := r.value[n]] == r.value;
    }
  }

  /** A service whose profile is missing gets `{"archaius": {"enabled": false}}`. */
  lemma MissingProfileCreated()
    ensures DefaultAll(None, ["clouddriver"]) ==
            (Some(map["clouddriver" := map["archaius" := Map(TAny, map["enabled" := Bool(false)])]]), None)
  {
    var m := AssertedTable(None, "clouddriver");
    assert m == map["clouddriver" := map[]];
    var p: Profile := map["archaius" := Map(TAny, map["enabled" := Bool(false)])];
    assert DefaultedProfile(m["clouddriver"]) == Ok(p);
    assert m["clouddriver" := p] == map["clouddriver" := p];
    assert ["clouddriver"][1..] == [];
  }

  /** A user's `archaius.enabled: true` is kept. */
  lemma UserValueKept()
    ensures var p: Profile := map["archaius" := Map(TAny, map["enabled" := Bool(true)])];
            DefaultAll(Some(map["echo" := p]), ["echo"]) == (Some(map["echo" := p]), None)
  {
    var p: Profile := map["archaius" := Map(TAny, map["enabled" := Bool(true)])];
    assert Settled(p);
    assert map["echo" := p]["echo" := p] == map["echo" := p];
  }

  /** A string `archaius` fails the profile, and no later service is processed. */
  lemma NonObjectArchaiusFails()
    ensures var p: Profile := map["archaius" := Str("on")];
            DefaultAll(Some(map["echo" := p]), ["echo", "gate"]) ==
            (Some(map["echo" := p]), Some(ProfileFailed("echo", ArchaiusNotObject)))
  {
    var p: Profile := map["archaius" := Str("on")];
    assert !IsObject(p["archaius"]);
  }
}
