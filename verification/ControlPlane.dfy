/** The remote side of a deployment: engines, staged objects, and a fault oracle
    (the contract of gcpClient in internal/vertex/client.go).

    Every call consults the oracle at its own position in the call log. Engines may
    vanish out of band before any call, a call may fail without effect, and a call
    may take effect and still be reported as failed. */
module ControlPlane {
  import opened Texts
  import opened AdapterState
  import opened EngineSpecs
  import GcsUri

  datatype Outcome = Fine | FailEarly | FailLate

  datatype Fate = Fate(vanish: set<ResourceName>, outcome: Outcome)

  datatype ApiError = EngineNotFound | Unavailable | BadUri

  datatype Call =
    | Create(spec: EngineSpec)
    | Update(name: ResourceName, spec: EngineSpec)
    | Get(name: ResourceName)
    | Delete(name: ResourceName)
    | Stage(uri: string)

  // created and lost are history: names the adapter's creates ever brought up, and
  // names that disappeared out of band. A name a dry run made up is in both: the
  // adapter's own, and never there.
  datatype Cloud = Cloud(
    engines: map<ResourceName, EngineSpec>,
    objects: map<GcsUri.ObjectKey, string>,
    next: ResourceName,
    created: set<ResourceName>,
    lost: set<ResourceName>,
    log: seq<Call>,
    fate: nat -> Fate
  )

  // Names are handed out in order, never the empty one, never twice.
  ghost predicate SaneCloud(c: Cloud) {
    && c.next > NO_NAME
    && (forall n :: n in c.engines ==> NO_NAME < n < c.next)
    && (forall n :: n in c.created ==> NO_NAME < n < c.next)
    && (forall n :: n in c.lost ==> n < c.next && n !in c.engines)
  }

  // No fault and no outside interference from here on.
  ghost predicate Calm(c: Cloud) {
    forall t: nat :: t >= |c.log| ==> c.fate(t) == Fate({}, Fine)
  }

  function OutcomeOf(c: Cloud): Outcome {
    c.fate(|c.log|).outcome
  }

  // What the control plane looks like when the call arrives.
  function Arrive(c: Cloud, call: Call): Cloud {
    var vanish := c.fate(|c.log|).vanish;
    c.(engines := c.engines - vanish, lost := c.lost + (vanish * c.engines.Keys), log := c.log + [call])
  }

  function AddEngine(c: Cloud, spec: EngineSpec): Cloud {
    c.(engines := c.engines[c.next := spec], next := c.next + 1, created := c.created + {c.next})
  }

  function NamesFrom(first: ResourceName, last: ResourceName): (names: set<ResourceName>)
    ensures forall n :: n in names <==> first <= n < last
    decreases last
  {
    if last <= first then {} else NamesFrom(first, last - 1) + {last - 1}
  }

  // The names up to here are spent on engines that never exist.
  function SetAside(c: Cloud, next: ResourceName): Cloud
    requires c.next <= next
  {
    var madeUp := NamesFrom(c.next, next);
    c.(next := next, created := c.created + madeUp, lost := c.lost + madeUp)
  }

  // The in-memory control plane of a dry run: no engines, no faults.
  function Scratch(first: ResourceName): Cloud {
    Cloud(map[], map[], first, {}, {}, [], _ => Fate({}, Fine))
  }

  function Creating(c: Cloud, spec: EngineSpec): (Cloud, Result<ResourceName, ApiError>) {
    var d := Arrive(c, Create(spec));
    match OutcomeOf(c)
    case Fine => (AddEngine(d, spec), Ok(d.next))
    case FailEarly => (d, Err(Unavailable))
    case FailLate => (AddEngine(d, spec), Err(Unavailable))
  }

  function Updating(c: Cloud, name: ResourceName, spec: EngineSpec): (Cloud, Result<ResourceName, ApiError>) {
    var d := Arrive(c, Update(name, spec));
    if OutcomeOf(c).FailEarly? then (d, Err(Unavailable))
    else if name !in d.engines then (d, Err(EngineNotFound))
    else (d.(engines := d.engines[name := spec]), if OutcomeOf(c).Fine? then Ok(name) else Err(Unavailable))
  }

  function Getting(c: Cloud, name: ResourceName): (Cloud, Result<EngineSpec, ApiError>) {
    var d := Arrive(c, Get(name));
    if !OutcomeOf(c).Fine? then (d, Err(Unavailable))
    else if name !in d.engines then (d, Err(EngineNotFound))
    else (d, Ok(d.engines[name]))
  }

  // Deleting an engine that is already gone is not an error.
  function Deleting(c: Cloud, name: ResourceName): (Cloud, Result<(), ApiError>) {
    var d := Arrive(c, Delete(name));
    match OutcomeOf(c)
    case Fine => (d.(engines := d.engines - {name}), Ok(()))
    case FailEarly => (d, Err(Unavailable))
    case FailLate => (d.(engines := d.engines - {name}), Err(Unavailable))
  }

  // The write goes to the bucket and object the URI splits into, or nowhere.
  function Staging(c: Cloud, uri: string, data: string): (Cloud, Result<(), ApiError>) {
    var d := Arrive(c, Stage(uri));
    match GcsUri.SplitGcsUri(uri)
    case Err(_) => (d, Err(BadUri))
    case Ok(key) =>
      match OutcomeOf(c)
      case Fine => (d.(objects := d.objects[key := data]), Ok(()))
      case FailEarly => (d, Err(Unavailable))
      case FailLate => (d.(objects := d.objects[key := data]), Err(Unavailable))
  }

  /** The client the adapter calls, updating the control plane in place. */
  class Client {
    var engines: map<ResourceName, EngineSpec>
    var objects: map<GcsUri.ObjectKey, string>
    var next: ResourceName
    var log: seq<Call>
    ghost var created: set<ResourceName>
    ghost var lost: set<ResourceName>
    const fate: nat -> Fate

    ghost function View(): Cloud
      reads this
    {
      Cloud(engines, objects, next, created, lost, log, fate)
    }

    constructor (fate: nat -> Fate)
      ensures View() == Cloud(map[], map[], 1, {}, {}, [], fate)
    {
      engines, objects, next, log, created, lost := map[], map[], 1, [], {}, {};
      this.fate := fate;
    }

    constructor DryRun(first: ResourceName)
      ensures View() == Scratch(first)
    {
      engines, objects, next, log, created, lost := map[], map[], first, [], {}, {};
      fate := Scratch(first).fate;
    }

    method SetAsideUpTo(last: ResourceName)
      requires next <= last
      modifies this
      ensures View() == SetAside(old(View()), last)
    {
      created, lost, next := SetAside(View(), last).created, SetAside(View(), last).lost, last;
    }

    method ArriveAt(call: Call) returns (outcome: Outcome)
      modifies this
      ensures View() == Arrive(old(View()), call)
      ensures outcome == OutcomeOf(old(View()))
    {
      var f := fate(|log|);
      lost := lost + (f.vanish * engines.Keys);
      engines := engines - f.vanish;
      log := log + [call];
      outcome := f.outcome;
    }

    method Add(spec: EngineSpec)
      modifies this
      ensures View() == AddEngine(old(View()), spec)
    {
      engines, created, next := engines[next := spec], created + {next}, next + 1;
    }

    method CreateEngine(spec: EngineSpec) returns (r: Result<ResourceName, ApiError>)
      modifies this
      ensures (View(), r) == Creating(old(View()), spec)
    {
      var outcome := ArriveAt(Create(spec));
      if outcome.FailEarly? {
        return Err(Unavailable);
      }
      var name := next;
      Add(spec);
      r := if outcome.Fine? then Ok(name) else Err(Unavailable);
    }

    method UpdateEngine(name: ResourceName, spec: EngineSpec) returns (r: Result<ResourceName, ApiError>)
      modifies this
      ensures (View(), r) == Updating(old(View()), name, spec)
    {
      var outcome := ArriveAt(Update(name, spec));
      if outcome.FailEarly? {
        return Err(Unavailable);
      }
      if name !in engines {
        return Err(EngineNotFound);
      }
      engines := engines[name := spec];
      r := if outcome.Fine? then Ok(name) else Err(Unavailable);
    }

    method GetEngine(name: ResourceName) returns (r: Result<EngineSpec, ApiError>)
      modifies this
      ensures (View(), r) == Getting(old(View()), name)
    {
      var outcome := ArriveAt(Get(name));
      if !outcome.Fine? {
        return Err(Unavailable);
      }
      r := if name !in engines then Err(EngineNotFound) else Ok(engines[name]);
    }

    method DeleteEngine(name: ResourceName) returns (r: Result<(), ApiError>)
      modifies this
      ensures (View(), r) == Deleting(old(View()), name)
    {
      var outcome := ArriveAt(Delete(name));
      if outcome.FailEarly? {
        return Err(Unavailable);
      }
      engines := engines - {name};
      r := if outcome.Fine? then Ok(()) else Err(Unavailable);
    }

    method StageObject(uri: string, data: string) returns (r: Result<(), ApiError>)
      modifies this
      ensures (View(), r) == Staging(old(View()), uri, data)
    {
      var outcome := ArriveAt(Stage(uri));
      var key := GcsUri.SplitGcsUri(uri);
      if key.Err? {
        return Err(BadUri);
      }
      if outcome.FailEarly? {
        return Err(Unavailable);
      }
      objects := objects[key.value := data];
      r := if outcome.Fine? then Ok(()) else Err(Unavailable);
    }
  }
}
