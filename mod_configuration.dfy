/**
 * Saving the Mods tab (`_saveModConfiguration`, settings.js:714-731). The
 * stored mod configuration maps mod ids to a boolean, null, or an object
 * with its own `value` and nested `mods`; each id has a toggle switch on
 * the tab, which may be tagged as a drop-in. Saving walks the entries in
 * order, copies the switch state into boolean entries and into the `value`
 * of object entries, recurses into their `mods`, and leaves drop-in and
 * null entries as they are. An entry without a switch makes the lookup
 * `tSwitch[0].hasAttribute` throw a TypeError; the model returns the
 * offending id as a Failure.
 */
module ModConfiguration {
  import opened Wrappers

  datatype ModValue = Flag(on: bool) | Null | Node(value: bool, mods: seq<Entry>)
  datatype Entry = Entry(key: string, val: ModValue)

  /** The first toggle switch whose `formod` is the id. */
  datatype Switch = Switch(checked: bool, dropin: bool)

  type Switches = map<string, Switch>

  /** The saved configuration of one entry's value, `key` having a switch. */
  function SaveValue(key: string, v: ModValue, sw: Switches): Result<ModValue, string>
    requires key in sw
    decreases v
  {
    if sw[key].dropin then Success(v)
    else
      match v
      case Flag(_) => Success(Flag(sw[key].checked))
      case Null => Success(Null)
      case Node(_, mods) =>
        match SaveMods(mods, sw)
        case Success(ms) => Success(Node(sw[key].checked, ms))
        case Failure(k) => Failure(k)
  }

  /** The saved configuration, or the first id (in walk order) that has no switch. */
  function SaveMods(conf: seq<Entry>, sw: Switches): Result<seq<Entry>, string>
    decreases conf
  {
    if conf == [] then Success([])
    else if conf[0].key !in sw then Failure(conf[0].key)
    else
      match SaveValue(conf[0].key, conf[0].val, sw)
      case Failure(k) => Failure(k)
      case Success(v) => Then([Entry(conf[0].key, v)], SaveMods(conf[1..], sw))
  }

  /** Entries already saved, followed by the outcome for the rest. */
  function Then(done: seq<Entry>, rest: Result<seq<Entry>, string>): Result<seq<Entry>, string> {
    match rest
    case Success(xs) => Success(done + xs)
    case Failure(k) => Failure(k)
  }

  /** Every id at every level of the configuration. */
  function AllKeys(conf: seq<Entry>): set<string>
    decreases conf
  {
    if conf == [] then {} else {conf[0].key} + ValueKeys(conf[0].val) + AllKeys(conf[1..])
  }

  function ValueKeys(v: ModValue): set<string>
    decreases v
  {
    if v.Node? then AllKeys(v.mods) else {}
  }

  /** The same ids, in the same order, with the same kind of value, at every level. */
  predicate SameShape(a: seq<Entry>, b: seq<Entry>)
    decreases a
  {
    |a| == |b| &&
    (a != [] ==> a[0].key == b[0].key && SameKind(a[0].val, b[0].val) && SameShape(a[1..], b[1..]))
  }

  predicate SameKind(x: ModValue, y: ModValue)
    decreases x
  {
    match x
    case Flag(_) => y.Flag?
    case Null => y.Null?
    case Node(_, m) => y.Node? && SameShape(m, y.mods)
  }

  lemma SaveModsUnfold(conf: seq<Entry>, i: nat, sw: Switches)
    requires i < |conf|
    ensures SaveMods(conf[i..], sw) ==
      if conf[i].key !in sw then Failure(conf[i].key)
      else match SaveValue(conf[i].key, conf[i].val, sw)
        case Failure(k) => Failure(k)
        case Success(v) => Then([Entry(conf[i].key, v)], SaveMods(conf[i + 1..], sw))
  {
    assert conf[i..][0] == conf[i];
    assert conf[i..][1..] == conf[i + 1..];
  }

  lemma ThenAssoc(a: seq<Entry>, b: seq<Entry>, r: Result<seq<Entry>, string>)
    ensures Then(a, Then(b, r)) == Then(a + b, r)
  {
    if r.Success? {
      assert a + (b + r.value) == (a + b) + r.value;
    }
  }

  lemma ThenNothing(r: Result<seq<Entry>, string>)
    ensures Then([], r) == r
  {
    if r.Success? {
      assert [] + r.value == r.value;
    }
  }

  /** `_saveModConfiguration`: rewrites the entries in place, recursing into nested mods. */
  method SaveModConfiguration(modConf: seq<Entry>, switches: Switches) returns (r: Result<seq<Entry>, string>)
    decreases modConf
    ensures r == SaveMods(modConf, switches)
  {
    var entries := modConf;
    var i := 0;
    assert modConf[0..] == modConf;
    ThenNothing(SaveMods(modConf, switches));
    while i < |entries|
      invariant 0 <= i <= |entries| == |modConf|
      invariant entries[i..] == modConf[i..]
      invariant SaveMods(modConf, switches) == Then(entries[..i], SaveMods(modConf[i..], switches))
    {
      assert entries[i] == modConf[i];
      SaveModsUnfold(modConf, i, switches);
      var key := entries[i].key;
      if key !in switches {
        return Failure(key);
      }
      var sw := switches[key];
      var saved: ModValue := entries[i].val;
      if !sw.dropin {
        match entries[i].val {
          case Flag(_) =>
            saved := Flag(sw.checked);
          case Null =>
          case Node(_, mods) =>
            var nested := SaveModConfiguration(mods, switches);
            if nested.Failure? {
              return Failure(nested.error);
            }
            saved := Node(sw.checked, nested.value);
        }
      }
      assert SaveValue(key, modConf[i].val, switches) == Success(saved);
      ghost var prefix := entries[..i];
      ThenAssoc(prefix, [Entry(key, saved)], SaveMods(modConf[i + 1..], switches));
      entries := entries[i := Entry(key, saved)];
      assert entries[..i + 1] == prefix + [Entry(key, saved)];
      i := i + 1;
    }
    assert modConf[i..] == [];
    assert entries[..i] == entries;
    assert entries + [] == entries;
    return Success(entries);
  }

  /** The ids the walk looks up: each entry's id, and the nested ids under switched, non-drop-in objects. */
  function Visited(conf: seq<Entry>, sw: Switches): set<string>
    decreases conf
  {
    if conf == [] then {}
    else
      var k := conf[0].key;
      var nested := if k in sw && !sw[k].dropin && conf[0].val.Node? then Visited(conf[0].val.mods, sw) else {};
      {k} + nested + Visited(conf[1..], sw)
  }

  lemma {:induction false} SameShapeReflexive(a: seq<Entry>)
    ensures SameShape(a, a)
    decreases a
  {
    if a != [] {
      SameKindReflexive(a[0].val);
      SameShapeReflexive(a[1..]);
    }
  }

  lemma {:induction false} SameKindReflexive(x: ModValue)
    ensures SameKind(x, x)
    decreases x
  {
    if x.Node? {
      SameShapeReflexive(x.mods);
    }
  }

  /** Saving never adds, drops, renames or reorders an id, nor changes the kind of an entry, at any level. */
  lemma {:induction false} SavePreservesShape(conf: seq<Entry>, sw: Switches, r: seq<Entry>)
    requires SaveMods(conf, sw) == Success(r)
    ensures SameShape(conf, r)
    ensures AllKeys(r) == AllKeys(conf)
    decreases conf
  {
    if conf != [] {
      var k := conf[0].key;
      var v := SaveValue(k, conf[0].val, sw).value;
      var rest := SaveMods(conf[1..], sw).value;
      SaveValuePreservesShape(k, conf[0].val, sw, v);
      SavePreservesShape(conf[1..], sw, rest);
      assert r == [Entry(k, v)] + rest;
      assert r[1..] == rest;
    }
  }

  lemma {:induction false} SaveValuePreservesShape(key: string, v: ModValue, sw: Switches, saved: ModValue)
    requires key in sw && SaveValue(key, v, sw) == Success(saved)
    ensures SameKind(v, saved)
    ensures ValueKeys(saved) == ValueKeys(v)
    decreases v
  {
    if sw[key].dropin {
      SameKindReflexive(v);
    } else if v.Node? {
      SavePreservesShape(v.mods, sw, saved.mods);
    }
  }

  /**
   * Entry by entry: each id has a switch; a drop-in or null entry is kept
   * as it is; a boolean entry becomes its switch's state; an object entry
   * keeps its id and gets its switch's state as `value` and its saved
   * nested mods.
   */
  lemma {:induction false} SaveEntrywise(conf: seq<Entry>, sw: Switches, r: seq<Entry>)
    requires SaveMods(conf, sw) == Success(r)
    ensures |r| == |conf|
    ensures forall i | 0 <= i < |conf| ::
      && conf[i].key in sw
      && r[i].key == conf[i].key
      && (sw[conf[i].key].dropin || conf[i].val.Null? ==> r[i] == conf[i])
      && (!sw[conf[i].key].dropin && conf[i].val.Flag? ==> r[i].val == Flag(sw[conf[i].key].checked))
      && (!sw[conf[i].key].dropin && conf[i].val.Node? ==>
            && r[i].val.Node?
            && r[i].val.value == sw[conf[i].key].checked
            && SaveMods(conf[i].val.mods, sw) == Success(r[i].val.mods))
    decreases conf
  {
    if conf != [] {
      var rest := SaveMods(conf[1..], sw).value;
      SaveEntrywise(conf[1..], sw, rest);
      assert r[1..] == rest;
      forall i | 1 <= i < |conf|
        ensures r[i] == rest[i - 1] && conf[i] == conf[1..][i - 1]
      {
      }
    }
  }

  /** Saving fails exactly when some id the walk looks up has no switch, and then it names such an id. */
  lemma {:induction false} SaveFailsIffSwitchMissing(conf: seq<Entry>, sw: Switches)
    ensures SaveMods(conf, sw).Failure? <==> !(Visited(conf, sw) <= sw.Keys)
    ensures SaveMods(conf, sw).Failure? ==>
      SaveMods(conf, sw).error in Visited(conf, sw) && SaveMods(conf, sw).error !in sw
    decreases conf
  {
    if conf != [] {
      var k := conf[0].key;
      SaveFailsIffSwitchMissing(conf[1..], sw);
      if k in sw && !sw[k].dropin && conf[0].val.Node? {
        SaveFailsIffSwitchMissing(conf[0].val.mods, sw);
      }
    }
  }

  /** Saving a saved configuration with the same switches changes nothing. */
  lemma {:induction false} SaveIdempotent(conf: seq<Entry>, sw: Switches, r: seq<Entry>)
    requires SaveMods(conf, sw) == Success(r)
    ensures SaveMods(r, sw) == Success(r)
    decreases conf
  {
    if conf != [] {
      var k := conf[0].key;
      var v := SaveValue(k, conf[0].val, sw).value;
      var rest := SaveMods(conf[1..], sw).value;
      SaveValueIdempotent(k, conf[0].val, sw, v);
      SaveIdempotent(conf[1..], sw, rest);
      assert r == [Entry(k, v)] + rest;
      assert r[1..] == rest;
      assert rest + [] == rest;
    }
  }

  lemma {:induction false} SaveValueIdempotent(key: string, v: ModValue, sw: Switches, saved: ModValue)
    requires key in sw && SaveValue(key, v, sw) == Success(saved)
    ensures SaveValue(key, saved, sw) == Success(saved)
    decreases v
  {
    if !sw[key].dropin && v.Node? {
      SaveIdempotent(v.mods, sw, saved.mods);
    }
  }
}
