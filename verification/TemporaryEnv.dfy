/** Variables set for the length of a rehearsal and put back afterwards. */
module TemporaryEnv {
  import opened Wrappers

  type Vars = map<string, string>

  datatype Setting = Setting(key: string, value: string)

  datatype Saved = Saved(key: string, value: Option<string>)

  predicate DistinctKeys(settings: seq<Setting>) {
    forall i, j :: 0 <= i < j < |settings| ==> settings[i].key != settings[j].key
  }

  function Lookup(vars: Vars, key: string): Option<string> {
    if key in vars then Some(vars[key]) else None
  }

  function Assign(vars: Vars, key: string, value: Option<string>): Vars {
    if value.Some? then vars[key := value.value] else vars - {key}
  }

  function SetAll(vars: Vars, settings: seq<Setting>): Vars {
    if settings == [] then vars
    else
      var last := settings[|settings| - 1];
      SetAll(vars, settings[..|settings| - 1])[last.key := last.value]
  }

  /** What was there before, key by key. */
  function SavedAll(vars: Vars, settings: seq<Setting>): (r: seq<Saved>)
    ensures |r| == |settings|
    ensures forall i :: 0 <= i < |r| ==> r[i].key == settings[i].key && r[i].value == Lookup(vars, settings[i].key)
  {
    if settings == [] then []
    else
      var last := settings[|settings| - 1];
      SavedAll(vars, settings[..|settings| - 1]) + [Saved(last.key, Lookup(vars, last.key))]
  }

  function RestoreAll(vars: Vars, saved: seq<Saved>): Vars {
    if saved == [] then vars
    else
      var last := saved[|saved| - 1];
      Assign(RestoreAll(vars, saved[..|saved| - 1]), last.key, last.value)
  }

  class ProcessEnv {
    var vars: Vars

    constructor (vars: Vars)
      ensures this.vars == vars
    {
      this.vars := vars;
    }

    method SetTemporary(settings: seq<Setting>) returns (saved: seq<Saved>)
      requires DistinctKeys(settings)
      modifies this
      ensures vars == SetAll(old(vars), settings)
      ensures saved == SavedAll(old(vars), settings)
    {
      saved := [];
      for i := 0 to |settings|
        invariant vars == SetAll(old(vars), settings[..i])
        invariant saved == SavedAll(old(vars), settings[..i])
      {
        assert settings[..i + 1][..i] == settings[..i];
        UnsetIsOld(old(vars), settings[..i], settings[i].key);
        saved := saved + [Saved(settings[i].key, Lookup(vars, settings[i].key))];
        vars := vars[settings[i].key := settings[i].value];
      }
      assert settings[..|settings|] == settings;
    }

    method Restore(saved: seq<Saved>)
      modifies this
      ensures vars == RestoreAll(old(vars), saved)
    {
      for i := 0 to |saved|
        invariant vars == RestoreAll(old(vars), saved[..i])
      {
        assert saved[..i + 1][..i] == saved[..i];
        if saved[i].value.None? {
          vars := vars - {saved[i].key};
        } else {
          vars := vars[saved[i].key := saved[i].value.value];
        }
      }
      assert saved[..|saved|] == saved;
    }
  }

  lemma {:induction false} UnsetIsOld(vars: Vars, settings: seq<Setting>, key: string)
    requires forall i :: 0 <= i < |settings| ==> settings[i].key != key
    ensures Lookup(SetAll(vars, settings), key) == Lookup(vars, key)
  {
    if settings != [] {
      UnsetIsOld(vars, settings[..|settings| - 1], key);
    }
  }

  predicate Touched(settings: seq<Setting>, key: string) {
    exists i :: 0 <= i < |settings| && settings[i].key == key
  }

  lemma {:induction false} RestoredValue(middle: Vars, saved: seq<Saved>, key: string)
    requires forall i, j :: 0 <= i < j < |saved| ==> saved[i].key != saved[j].key
    ensures (forall i :: 0 <= i < |saved| ==> saved[i].key != key) ==>
      Lookup(RestoreAll(middle, saved), key) == Lookup(middle, key)
    ensures forall i :: 0 <= i < |saved| && saved[i].key == key ==>
      Lookup(RestoreAll(middle, saved), key) == saved[i].value
    decreases |saved|
  {
    if saved != [] {
      var init, last := saved[..|saved| - 1], saved[|saved| - 1];
      RestoredValue(middle, init, key);
      assert forall i :: 0 <= i < |init| ==> init[i] == saved[i];
    }
  }

  /**
   Whatever the rehearsal does to the environment in between, restoring gives the keys that were set their
   old values back, absent ones included, and leaves every other key as the rehearsal left it.
   */
  lemma RestorePutsBack(vars: Vars, settings: seq<Setting>, middle: Vars, key: string)
    requires DistinctKeys(settings)
    ensures Lookup(RestoreAll(middle, SavedAll(vars, settings)), key)
      == if Touched(settings, key) then Lookup(vars, key) else Lookup(middle, key)
  {
    hide RestoreAll, Lookup;
    RestoredValue(middle, SavedAll(vars, settings), key);
  }

  /** In particular, setting and restoring with nothing in between changes nothing. */
  lemma SetThenRestore(vars: Vars, settings: seq<Setting>)
    requires DistinctKeys(settings)
    ensures RestoreAll(SetAll(vars, settings), SavedAll(vars, settings)) == vars
  {
    var after := RestoreAll(SetAll(vars, settings), SavedAll(vars, settings));
    forall key
      ensures Lookup(after, key) == Lookup(vars, key)
    {
      RestorePutsBack(vars, settings, SetAll(vars, settings), key);
      if !Touched(settings, key) {
        UnsetIsOld(vars, settings, key);
      }
    }
    forall key
      ensures (key in after <==> key in vars) && (key in vars ==> after[key] == vars[key])
    {
      assert Lookup(after, key) == Lookup(vars, key);
    }
  }
}
