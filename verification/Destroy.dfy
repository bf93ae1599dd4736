/** Tearing a deployment down (internal/vertex/lifecycle.go).

    The caller's callback is a function from event number to "this one fails"; a nil
    callback is the one that never does. */
module Destroy {
  import opened Texts
  import opened AdapterState
  import opened ControlPlane
  import opened ApplyFacts

  type Callback = nat -> bool

  ghost predicate NeverFails(fails: Callback) {
    forall k :: !fails(k)
  }

  datatype OneResult = Done | DeleteError | CallbackError

  // One engine: announce it, delete it or explain why not, report what happened.
  // The number is the callback events sent so far.
  function OneDestroyed(c: Cloud, name: ResourceName, fails: Callback, sent: nat): (Cloud, nat, OneResult) {
    if fails(sent) then (c, sent + 1, CallbackError)
    else if name == NO_NAME then (c, sent + 2, if fails(sent + 1) then CallbackError else Done)
    else
      var (d, r) := Deleting(c, name);
      (d, sent + 2, if fails(sent + 1) then CallbackError else if r.Err? then DeleteError else Done)
  }

  // err names the first agent whose delete was reported as failed. When the callback
  // fails the pass stops and the error returned is nil, whatever failed before:
  // unwrapping an error that wraps two others yields none of them.
  datatype Destroyed = Destroyed(cloud: Cloud, sent: nat, err: Option<string>, hungUp: bool)

  function NamesDestroyed(
    c: Cloud, names: seq<string>, engines: Engines, fails: Callback, sent: nat, firstErr: Option<string>
  ): Destroyed
    requires forall n :: n in names ==> n in engines
    decreases |names|
  {
    if names == [] then Destroyed(c, sent, firstErr, false)
    else
      var (d, more, one) := OneDestroyed(c, engines[names[0]].name, fails, sent);
      assert forall n :: n in names[1..] ==> n in names;
      match one
      case CallbackError => Destroyed(d, more, None, true)
      case DeleteError =>
        NamesDestroyed(d, names[1..], engines, fails, more, if firstErr.None? then Some(names[0]) else firstErr)
      case Done => NamesDestroyed(d, names[1..], engines, fails, more, firstErr)
  }

  // A failing callback on an empty state is the one case whose error does get out.
  ghost function StateDestroyed(c: Cloud, prior: State, fails: Callback): Destroyed {
    if prior.engines == map[] then Destroyed(c, 1, if fails(0) then Some("") else None, fails(0))
    else NamesDestroyed(c, SortedNames(prior.engines.Keys), prior.engines, fails, 0, None)
  }

  method DestroyOneEngine(client: Client, name: ResourceName, fails: Callback, sent: nat)
    returns (more: nat, one: OneResult)
    modifies client
    ensures (client.View(), more, one) == OneDestroyed(old(client.View()), name, fails, sent)
  {
    if fails(sent) {
      return sent + 1, CallbackError;
    }
    if name == NO_NAME {
      return sent + 2, if fails(sent + 1) then CallbackError else Done;
    }
    var r := client.DeleteEngine(name);
    more := sent + 2;
    one := if fails(sent + 1) then CallbackError else if r.Err? then DeleteError else Done;
  }

  // The rest of the pass completes what has been done so far.
  ghost predicate Passing(
    whole: Destroyed, c: Cloud, names: seq<string>, engines: Engines, fails: Callback, i: nat, sent: nat,
    firstErr: Option<string>
  ) {
    && i <= |names|
    && (forall n :: n in names ==> n in engines)
    && (forall n :: n in names[i..] ==> n in names)
    && whole == NamesDestroyed(c, names[i..], engines, fails, sent, firstErr)
  }

  lemma PassingNext(
    whole: Destroyed, c: Cloud, names: seq<string>, engines: Engines, fails: Callback, i: nat, sent: nat,
    firstErr: Option<string>
  )
    requires Passing(whole, c, names, engines, fails, i, sent, firstErr) && i < |names|
    ensures var (d, more, one) := OneDestroyed(c, engines[names[i]].name, fails, sent);
            match one
            case CallbackError => whole == Destroyed(d, more, None, true)
            case DeleteError =>
              Passing(whole, d, names, engines, fails, i + 1, more, if firstErr.None? then Some(names[i]) else firstErr)
            case Done => Passing(whole, d, names, engines, fails, i + 1, more, firstErr)
  {}

  lemma PassingStart(c: Cloud, prior: State, fails: Callback)
    requires prior.engines != map[]
    ensures Passing(StateDestroyed(c, prior, fails), c, SortedNames(prior.engines.Keys), prior.engines, fails, 0, 0,
                    None)
  {
    var names := SortedNames(prior.engines.Keys);
    assert names[0..] == names;
  }

  lemma PassingEnd(
    whole: Destroyed, c: Cloud, names: seq<string>, engines: Engines, fails: Callback, sent: nat,
    firstErr: Option<string>
  )
    requires Passing(whole, c, names, engines, fails, |names|, sent, firstErr)
    ensures whole == Destroyed(c, sent, firstErr, false)
  {}

  lemma NothingToDestroy(c: Cloud, prior: State, fails: Callback)
    requires prior.engines == map[]
    ensures StateDestroyed(c, prior, fails) == Destroyed(c, 1, if fails(0) then Some("") else None, fails(0))
  {}

  method DestroyAll(client: Client, prior: State, fails: Callback)
    returns (err: Option<string>, sent: nat, hungUp: bool)
    modifies client
    ensures Destroyed(client.View(), sent, err, hungUp) == StateDestroyed(old(client.View()), prior, fails)
  {
    hide StateDestroyed, Passing, OneDestroyed, NamesDestroyed;
    if prior.engines == map[] {
      NothingToDestroy(client.View(), prior, fails);
      return if fails(0) then Some("") else None, 1, fails(0);
    }
    var names := SortedKeys(prior.engines.Keys);
    ghost var whole := StateDestroyed(client.View(), prior, fails);
    PassingStart(client.View(), prior, fails);
    var firstErr: Option<string> := None;
    sent := 0;
    var i := 0;
    while i < |names|
      invariant 0 <= i <= |names|
      invariant Passing(whole, client.View(), names, prior.engines, fails, i, sent, firstErr)
    {
      var name := names[i];
      assert name in names;
      PassingNext(whole, client.View(), names, prior.engines, fails, i, sent, firstErr);
      var one: OneResult;
      sent, one := DestroyOneEngine(client, prior.engines[name].name, fails, sent);
      if one.CallbackError? {
        return None, sent, true;
      }
      if one.DeleteError? && firstErr.None? {
        firstErr := Some(name);
      }
      i := i + 1;
    }
    PassingEnd(whole, client.View(), names, prior.engines, fails, sent, firstErr);
    err, hungUp := firstErr, false;
  }

  // ---- What a pass does ----

  // The deletes a whole pass attempts: every recorded resource name, once, in order.
  function DeleteCalls(names: seq<string>, engines: Engines): seq<Call>
    requires forall n :: n in names ==> n in engines
  {
    if names == [] then []
    else
      assert forall n :: n in names[1..] ==> n in names;
      (if engines[names[0]].name == NO_NAME then [] else [Delete(engines[names[0]].name)])
      + DeleteCalls(names[1..], engines)
  }

  // The oracle let every call between these two log positions succeed.
  ghost predicate AllFine(fate: nat -> Fate, from: nat, to: nat) {
    forall t :: from <= t < to ==> fate(t).outcome.Fine?
  }

  // Every delete that succeeded between the two clouds took its engine away.
  ghost predicate FineDeletesGone(c: Cloud, d: Cloud) {
    c.log <= d.log
    && forall t :: |c.log| <= t < |d.log| && d.log[t].Delete? && c.fate(t).outcome.Fine?
                   ==> d.log[t].name !in d.engines
  }

  // What a pass over these names did: the calls made are a prefix of the whole pass,
  // all of it unless the callback failed; the error is nil exactly when the callback
  // failed or every delete made succeeded (and none had failed before).
  ghost predicate PassOutcome(
    c: Cloud, calls: seq<Call>, fails: Callback, clean: bool, mine: set<ResourceName>, r: Destroyed
  ) {
    && SaneCloud(r.cloud) && Evolves(c, r.cloud, mine) && FineDeletesGone(c, r.cloud)
    && r.cloud.created == c.created && r.cloud.engines.Keys <= c.engines.Keys
    && r.cloud.log <= c.log + calls
    && (!r.hungUp ==> r.cloud.log == c.log + calls)
    && (r.err.None? <==> r.hungUp || (clean && AllFine(c.fate, |c.log|, |r.cloud.log|)))
    && (NeverFails(fails) ==> !r.hungUp)
  }

  // The same of one engine.
  ghost predicate OneOutcome(
    c: Cloud, name: ResourceName, fails: Callback, mine: set<ResourceName>, d: Cloud, one: OneResult
  ) {
    var here := if name == NO_NAME then [] else [Delete(name)];
    && SaneCloud(d) && Evolves(c, d, mine) && FineDeletesGone(c, d)
    && d.created == c.created && d.engines.Keys <= c.engines.Keys
    && d.log <= c.log + here
    && (!one.CallbackError? ==> d.log == c.log + here)
    && (one.DeleteError? ==> name != NO_NAME && !c.fate(|c.log|).outcome.Fine?)
    && (one.Done? ==> name == NO_NAME || c.fate(|c.log|).outcome.Fine?)
    && (NeverFails(fails) ==> !one.CallbackError?)
  }

  lemma PassCons(
    c: Cloud, d: Cloud, name: ResourceName, rest: seq<Call>, fails: Callback, clean: bool, mine: set<ResourceName>,
    one: OneResult, r: Destroyed
  )
    requires OneOutcome(c, name, fails, mine, d, one) && !one.CallbackError?
    requires PassOutcome(d, rest, fails, clean && one.Done?, mine, r)
    ensures PassOutcome(c, (if name == NO_NAME then [] else [Delete(name)]) + rest, fails, clean, mine, r)
  {
    hide SaneCloud;
    EvolvesTransitive(c, d, r.cloud, mine);
    GoneStaysGone(c, d, r.cloud);
    FineSplit(c, d, r.cloud, one);
    var here := if name == NO_NAME then [] else [Delete(name)];
    assert c.log + here + rest == c.log + (here + rest);
  }

  lemma {:induction false} NamesDestroyedFacts(
    c: Cloud, names: seq<string>, engines: Engines, fails: Callback, sent: nat, firstErr: Option<string>,
    mine: set<ResourceName>
  )
    requires SaneCloud(c)
    requires forall n :: n in names ==> n in engines && engines[n].name in mine
    ensures PassOutcome(c, DeleteCalls(names, engines), fails, firstErr.None?, mine,
                        NamesDestroyed(c, names, engines, fails, sent, firstErr))
    decreases |names|
  {
    if names == [] {
      assert c.log + [] == c.log;
    } else {
      var name := engines[names[0]].name;
      var (d, more, one) := OneDestroyed(c, name, fails, sent);
      assert forall n :: n in names[1..] ==> n in names;
      OneDestroyedFacts(c, name, fails, sent, mine);
      if one.CallbackError? {
        StopsHere(c, d, name, DeleteCalls(names[1..], engines), fails, more, mine, firstErr.None?);
      } else {
        var err := if one.DeleteError? && firstErr.None? then Some(names[0]) else firstErr;
        NamesDestroyedFacts(d, names[1..], engines, fails, more, err, mine);
        var r := NamesDestroyed(d, names[1..], engines, fails, more, err);
        PassCons(c, d, name, DeleteCalls(names[1..], engines), fails, firstErr.None?, mine, one, r);
        hide PassOutcome, OneOutcome, OneDestroyed;
      }
    }
  }

  lemma StopsHere(
    c: Cloud, d: Cloud, name: ResourceName, rest: seq<Call>, fails: Callback, more: nat, mine: set<ResourceName>,
    clean: bool
  )
    requires OneOutcome(c, name, fails, mine, d, CallbackError)
    ensures PassOutcome(c, (if name == NO_NAME then [] else [Delete(name)]) + rest, fails, clean, mine,
                        Destroyed(d, more, None, true))
  {}

  lemma OneDestroyedFacts(c: Cloud, name: ResourceName, fails: Callback, sent: nat, mine: set<ResourceName>)
    requires SaneCloud(c) && name in mine
    ensures OneOutcome(c, name, fails, mine, OneDestroyed(c, name, fails, sent).0, OneDestroyed(c, name, fails, sent).2)
  {
    DeletingFacts(c, name);
    EvolvesWider(c, Deleting(c, name).0, {name}, mine);
  }

  lemma GoneStaysGone(c: Cloud, d: Cloud, e: Cloud)
    requires FineDeletesGone(c, d) && FineDeletesGone(d, e) && c.fate == d.fate
    requires e.engines.Keys <= d.engines.Keys
    ensures FineDeletesGone(c, e)
  {}

  lemma FineSplit(c: Cloud, d: Cloud, e: Cloud, one: OneResult)
    requires c.log <= d.log <= e.log && c.fate == d.fate && |d.log| <= |c.log| + 1
    requires one.Done? ==> AllFine(c.fate, |c.log|, |d.log|)
    requires one.DeleteError? ==> |d.log| > |c.log| && !c.fate(|c.log|).outcome.Fine?
    requires !one.CallbackError?
    ensures AllFine(c.fate, |c.log|, |e.log|) <==> one.Done? && AllFine(c.fate, |d.log|, |e.log|)
  {}

  // With a callback that never fails, a destroy attempts every recorded engine once,
  // in name order and despite failures, and reports success exactly when every
  // attempt succeeded.
  lemma DestroyAttemptsAll(c: Cloud, prior: State, fails: Callback)
    requires SaneCloud(c) && NeverFails(fails)
    ensures var r := StateDestroyed(c, prior, fails);
            var names := SortedNames(prior.engines.Keys);
            && r.cloud.log == c.log + DeleteCalls(names, prior.engines)
            && (r.err.None? <==> AllFine(c.fate, |c.log|, |r.cloud.log|))
            && SaneCloud(r.cloud) && Evolves(c, r.cloud, Recorded(prior.engines)) && FineDeletesGone(c, r.cloud)
            && r.cloud.engines.Keys <= c.engines.Keys && r.cloud.created == c.created
  {
    var names := SortedNames(prior.engines.Keys);
    NamesDestroyedFacts(c, names, prior.engines, fails, 0, None, Recorded(prior.engines));
    if prior.engines == map[] {
      ListingUnique(names, [], {});
      assert c.log + [] == c.log;
    }
  }

  ghost function LiveRecorded(c: Cloud, engines: Engines): set<ResourceName> {
    Recorded(engines) * c.engines.Keys
  }

  lemma {:induction false} EveryNameAttempted(names: seq<string>, engines: Engines, agent: string) returns (i: nat)
    requires forall n :: n in names ==> n in engines
    requires agent in names && engines[agent].name != NO_NAME
    ensures i < |DeleteCalls(names, engines)| && DeleteCalls(names, engines)[i] == Delete(engines[agent].name)
    decreases |names|
  {
    assert forall n :: n in names[1..] ==> n in names;
    if names[0] == agent {
      i := 0;
    } else {
      i := EveryNameAttempted(names[1..], engines, agent);
      i := if engines[names[0]].name == NO_NAME then i else i + 1;
    }
  }

  // Destroying again only ever shrinks what is live, by every live engine whose
  // delete succeeds; once faults stop, one pass clears it and reports success.
  lemma DestroyShrinks(c: Cloud, prior: State, fails: Callback)
    requires SaneCloud(c) && NeverFails(fails)
    ensures var r := StateDestroyed(c, prior, fails);
            && LiveRecorded(r.cloud, prior.engines) <= LiveRecorded(c, prior.engines)
            && (forall t :: |c.log| <= t < |r.cloud.log| && r.cloud.log[t].Delete? && c.fate(t).outcome.Fine?
                            && r.cloud.log[t].name in LiveRecorded(c, prior.engines)
                            ==> LiveRecorded(r.cloud, prior.engines) < LiveRecorded(c, prior.engines))
            && (r.err.None? ==> LiveRecorded(r.cloud, prior.engines) == {})
            && (Calm(c) ==> r.err.None?)
  {
    DestroyAttemptsAll(c, prior, fails);
    var r := StateDestroyed(c, prior, fails);
    var names := SortedNames(prior.engines.Keys);
    if r.err.None? {
      forall n | n in Recorded(prior.engines)
        ensures n !in r.cloud.engines
      {
        var a :| a in prior.engines && prior.engines[a].name == n;
        if n != NO_NAME {
          assert a in names;
          var i := EveryNameAttempted(names, prior.engines, a);
          assert r.cloud.log[|c.log| + i] == Delete(n);
        }
      }
    }
  }

  // ---- When the callback fails ----

  // Each recorded engine sends two events, so these are the events of a whole pass.
  ghost predicate HangsUp(engines: Engines, fails: Callback) {
    exists k :: 0 <= k < 2 * |engines| && fails(k)
  }

  lemma {:induction false} PassHangsUp(
    c: Cloud, names: seq<string>, engines: Engines, fails: Callback, sent: nat, firstErr: Option<string>
  )
    requires forall n :: n in names ==> n in engines
    ensures NamesDestroyed(c, names, engines, fails, sent, firstErr).hungUp
            <==> exists k :: sent <= k < sent + 2 * |names| && fails(k)
    decreases |names|
  {
    if names != [] {
      var (d, more, one) := OneDestroyed(c, engines[names[0]].name, fails, sent);
      assert forall n :: n in names[1..] ==> n in names;
      assert one.CallbackError? <==> fails(sent) || fails(sent + 1);
      if !one.CallbackError? {
        assert more == sent + 2;
        var err := if one.DeleteError? && firstErr.None? then Some(names[0]) else firstErr;
        PassHangsUp(d, names[1..], engines, fails, more, err);
      }
      hide OneDestroyed;
    }
  }

  // A destroy stops early exactly when the callback fails on an event of the pass. Then
  // it reports success, whatever was or was not deleted; otherwise it reports success
  // exactly when every delete it made succeeded.
  lemma HungUpDestroyLooksClean(c: Cloud, prior: State, fails: Callback)
    requires SaneCloud(c) && prior.engines != map[]
    ensures var r := StateDestroyed(c, prior, fails);
            && (r.hungUp <==> HangsUp(prior.engines, fails))
            && (r.err.None? <==> HangsUp(prior.engines, fails) || AllFine(c.fate, |c.log|, |r.cloud.log|))
            && (fails(0) ==> r == Destroyed(c, 1, None, true))
  {
    var names := SortedNames(prior.engines.Keys);
    PassHangsUp(c, names, prior.engines, fails, 0, None);
    ListingSize(names, prior.engines.Keys);
    assert |names| == |prior.engines|;
    NamesDestroyedFacts(c, names, prior.engines, fails, 0, None, Recorded(prior.engines));
    assert names != [] by {
      var a :| a in prior.engines;
      assert a in names;
    }
  }

  // Every record with a resource name had its delete called and succeed.
  ghost predicate AllDeleted(c: Cloud, engines: Engines, after: Cloud) {
    forall a :: a in engines && engines[a].name != NO_NAME
                ==> DeletedBetween(c.fate, after.log, |c.log|, engines[a].name)
  }

  ghost predicate DeletedBetween(fate: nat -> Fate, log: seq<Call>, from: nat, name: ResourceName) {
    exists t: nat :: from <= t < |log| && log[t] == Delete(name) && fate(t).outcome.Fine?
  }

  ghost predicate Nameless(engines: Engines) {
    forall a :: a in engines ==> engines[a].name == NO_NAME
  }

  // What a caller can rely on: success means every named engine was deleted, on every
  // control plane and under every fate, exactly when the callback fails on no event of
  // the pass, or there was nothing to delete.
  lemma NilMeansDeleted(prior: State, fails: Callback)
    ensures (forall c: Cloud :: SaneCloud(c) && StateDestroyed(c, prior, fails).err.None?
                                ==> AllDeleted(c, prior.engines, StateDestroyed(c, prior, fails).cloud))
            <==> !HangsUp(prior.engines, fails) || Nameless(prior.engines)
  {
    if !HangsUp(prior.engines, fails) {
      forall c: Cloud | SaneCloud(c) && StateDestroyed(c, prior, fails).err.None?
        ensures AllDeleted(c, prior.engines, StateDestroyed(c, prior, fails).cloud)
      {
        CleanPassDeletes(c, prior, fails);
      }
    } else if !Nameless(prior.engines) {
      var c := Cloud(map[], map[], 1, {}, {}, [], _ => Fate({}, FailEarly));
      HungUpDestroyLooksClean(c, prior, fails);
      var a :| a in prior.engines && prior.engines[a].name != NO_NAME;
      assert !DeletedBetween(c.fate, StateDestroyed(c, prior, fails).cloud.log, 0, prior.engines[a].name);
      assert SaneCloud(c) && !AllDeleted(c, prior.engines, StateDestroyed(c, prior, fails).cloud);
    }
  }

  lemma CleanPassDeletes(c: Cloud, prior: State, fails: Callback)
    requires SaneCloud(c) && !HangsUp(prior.engines, fails) && StateDestroyed(c, prior, fails).err.None?
    ensures AllDeleted(c, prior.engines, StateDestroyed(c, prior, fails).cloud)
  {
    if prior.engines != map[] {
      var r, names := StateDestroyed(c, prior, fails), SortedNames(prior.engines.Keys);
      HungUpDestroyLooksClean(c, prior, fails);
      NamesDestroyedFacts(c, names, prior.engines, fails, 0, None, Recorded(prior.engines));
      hide StateDestroyed, HangsUp, SaneCloud;
      forall a | a in prior.engines && prior.engines[a].name != NO_NAME
        ensures DeletedBetween(c.fate, r.cloud.log, |c.log|, prior.engines[a].name)
      {
        var i := EveryNameAttempted(names, prior.engines, a);
        assert r.cloud.log[|c.log| + i] == Delete(prior.engines[a].name);
      }
    }
  }

  // Any destroy, whatever its callback does: only recorded engines go, nothing comes
  // up, and success without a hang-up leaves no recorded engine live.
  lemma DestroyEffect(c: Cloud, prior: State, fails: Callback)
    requires SaneCloud(c)
    ensures var r := StateDestroyed(c, prior, fails);
            && SaneCloud(r.cloud) && Evolves(c, r.cloud, Recorded(prior.engines))
            && r.cloud.created == c.created && r.cloud.engines.Keys <= c.engines.Keys
            && (r.err.None? && !HangsUp(prior.engines, fails) ==> LiveRecorded(r.cloud, prior.engines) == {})
  {
    var r, names := StateDestroyed(c, prior, fails), SortedNames(prior.engines.Keys);
    NamesDestroyedFacts(c, names, prior.engines, fails, 0, None, Recorded(prior.engines));
    if prior.engines != map[] && r.err.None? && !HangsUp(prior.engines, fails) {
      HungUpDestroyLooksClean(c, prior, fails);
      hide StateDestroyed, HangsUp, SaneCloud, Evolves;
      forall n | n in Recorded(prior.engines)
        ensures n !in r.cloud.engines
      {
        var a :| a in prior.engines && prior.engines[a].name == n;
        NoneLeft(c, prior, r, a);
      }
    }
  }

  lemma NoneLeft(c: Cloud, prior: State, r: Destroyed, a: string)
    requires SaneCloud(r.cloud) && FineDeletesGone(c, r.cloud) && AllFine(c.fate, |c.log|, |r.cloud.log|)
    requires r.cloud.log == c.log + DeleteCalls(SortedNames(prior.engines.Keys), prior.engines) && a in prior.engines
    ensures prior.engines[a].name !in r.cloud.engines
  {
    if prior.engines[a].name != NO_NAME {
      var i := EveryNameAttempted(SortedNames(prior.engines.Keys), prior.engines, a);
      assert r.cloud.log[|c.log| + i] == Delete(prior.engines[a].name);
    }
  }

  // ---- Which failure is reported ----

  // The k-th recorded engine has a name, and its delete was reported as failed.
  ghost predicate FailsAt(c: Cloud, names: seq<string>, engines: Engines, k: nat)
    requires k < |names| && forall n :: n in names ==> n in engines
  {
    && engines[names[k]].name != NO_NAME
    && !c.fate(|c.log| + CallsBefore(names, engines, k)).outcome.Fine?
  }

  // The deletes made before the k-th recorded engine's turn.
  function CallsBefore(names: seq<string>, engines: Engines, k: nat): nat
    requires k <= |names| && forall n :: n in names ==> n in engines
  {
    if k == 0 then 0
    else
      CallsBefore(names, engines, k - 1) + if engines[names[k - 1]].name == NO_NAME then 0 else 1
  }

  lemma {:induction false} CallsBeforeTail(names: seq<string>, engines: Engines, k: nat)
    requires 0 < k <= |names| && forall n :: n in names ==> n in engines
    ensures forall n :: n in names[1..] ==> n in engines
    ensures CallsBefore(names, engines, k)
            == (if engines[names[0]].name == NO_NAME then 0 else 1) + CallsBefore(names[1..], engines, k - 1)
  {
    assert forall n :: n in names[1..] ==> n in names;
    if k > 1 {
      CallsBeforeTail(names, engines, k - 1);
      assert names[k - 1] == names[1..][k - 2];
    }
  }

  lemma {:induction false} FirstErrorStays(
    c: Cloud, names: seq<string>, engines: Engines, fails: Callback, sent: nat, firstErr: Option<string>
  )
    requires NeverFails(fails) && firstErr.Some? && forall n :: n in names ==> n in engines
    ensures NamesDestroyed(c, names, engines, fails, sent, firstErr).err == firstErr
    decreases |names|
  {
    if names != [] {
      var (d, more, one) := OneDestroyed(c, engines[names[0]].name, fails, sent);
      assert forall n :: n in names[1..] ==> n in names;
      FirstErrorStays(d, names[1..], engines, fails, more, firstErr);
    }
  }

  // The first engine whose delete failed is the one named.
  ghost predicate FirstFailure(c: Cloud, names: seq<string>, engines: Engines, err: Option<string>)
    requires forall n :: n in names ==> n in engines
  {
    if err.None? then forall k :: 0 <= k < |names| ==> !FailsAt(c, names, engines, k)
    else exists k :: && 0 <= k < |names| && names[k] == err.value && FailsAt(c, names, engines, k)
                     && forall j :: 0 <= j < k ==> !FailsAt(c, names, engines, j)
  }

  lemma FailureLater(c: Cloud, d: Cloud, names: seq<string>, engines: Engines, err: Option<string>)
    requires names != [] && (forall n :: n in names ==> n in engines) && (forall n :: n in names[1..] ==> n in engines)
    requires c.fate == d.fate && |d.log| == |c.log| + if engines[names[0]].name == NO_NAME then 0 else 1
    requires !FailsAt(c, names, engines, 0) && FirstFailure(d, names[1..], engines, err)
    ensures FirstFailure(c, names, engines, err)
  {
    forall k | 0 < k < |names|
      ensures FailsAt(c, names, engines, k) <==> FailsAt(d, names[1..], engines, k - 1)
    {
      CallsBeforeTail(names, engines, k);
    }
    hide FailsAt;
    if err.Some? {
      var k :| && 0 <= k < |names[1..]| && names[1..][k] == err.value && FailsAt(d, names[1..], engines, k)
               && forall j :: 0 <= j < k ==> !FailsAt(d, names[1..], engines, j);
      assert FailsAt(c, names, engines, k + 1);
    }
  }

  lemma {:induction false} PassNamesFirst(c: Cloud, names: seq<string>, engines: Engines, fails: Callback, sent: nat)
    requires NeverFails(fails) && forall n :: n in names ==> n in engines
    ensures FirstFailure(c, names, engines, NamesDestroyed(c, names, engines, fails, sent, None).err)
    decreases |names|
  {
    if names != [] {
      var (d, more, one) := OneDestroyed(c, engines[names[0]].name, fails, sent);
      assert forall n :: n in names[1..] ==> n in names;
      assert one.DeleteError? <==> FailsAt(c, names, engines, 0);
      if one.DeleteError? {
        FirstErrorStays(d, names[1..], engines, fails, more, Some(names[0]));
      } else {
        PassNamesFirst(d, names[1..], engines, fails, more);
        hide OneDestroyed, FirstFailure;
        FailureLater(c, d, names, engines, NamesDestroyed(d, names[1..], engines, fails, more, None).err);
      }
    }
  }

  // With a callback that never fails, the error reported is that of the first engine in
  // name order whose delete failed, and none exactly when no delete did.
  lemma DestroyReportsFirst(c: Cloud, prior: State, fails: Callback)
    requires NeverFails(fails)
    ensures FirstFailure(c, SortedNames(prior.engines.Keys), prior.engines, StateDestroyed(c, prior, fails).err)
  {
    if prior.engines == map[] {
      ListingUnique(SortedNames(prior.engines.Keys), [], {});
    } else {
      PassNamesFirst(c, SortedNames(prior.engines.Keys), prior.engines, fails, 0);
    }
  }
}
