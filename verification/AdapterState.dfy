/** The state the CLI stores between operations (internal/vertex/state.go), over an
    abstract JSON object: a map from field name to value. */
module AdapterState {
  import opened Texts

  const STATE_VERSION := 1

  // Server-assigned resource names are numbers here; zero is the empty name.
  type ResourceName = nat

  const NO_NAME: ResourceName := 0

  datatype EngineState = EngineState(name: ResourceName, inFlight: bool)

  type Engines = map<string, EngineState>

  datatype Json = Null | Number(n: int) | Text(s: string) | Table(engines: Engines) | Raw(raw: string)

  // The keys of a state document: the ones this version owns, and any other.
  datatype Field =
    | Version | AdapterVersion | PackHash | ConfigHash | ImageDigest
    | StagedPackUri | StagedPackGeneration | EngineTable
    | Other(name: string)

  type Document = map<Field, Json>

  datatype State = State(
    version: int,
    adapterVersion: string,
    packHash: string,
    configHash: string,
    imageDigest: string,
    stagedPackUri: string,
    stagedPackGeneration: int,
    engines: Engines,
    unknown: Document
  )

  datatype StateError = IllTyped | NewerVersion(version: int)

  function NewState(): State {
    State(STATE_VERSION, "", "", "", "", "", 0, map[], map[])
  }

  const OWNED_FIELDS := {Version, AdapterVersion, PackHash, ConfigHash, ImageDigest,
                         StagedPackUri, StagedPackGeneration, EngineTable}

  // A field tagged omitempty is written only when it is not the zero value.
  function OmitEmptyText(s: string): Option<Json> {
    if s == "" then None else Some(Text(s))
  }

  function OmitEmptyNumber(n: int): Option<Json> {
    if n == 0 then None else Some(Number(n))
  }

  function FieldValue(s: State, f: Field): Option<Json> {
    match f
    case Version => Some(Number(s.version))
    case AdapterVersion => OmitEmptyText(s.adapterVersion)
    case PackHash => OmitEmptyText(s.packHash)
    case ConfigHash => OmitEmptyText(s.configHash)
    case ImageDigest => OmitEmptyText(s.imageDigest)
    case StagedPackUri => OmitEmptyText(s.stagedPackUri)
    case StagedPackGeneration => OmitEmptyNumber(s.stagedPackGeneration)
    case EngineTable => Some(Table(s.engines))
    case Other(_) => None
  }

  function KnownFields(s: State): Document {
    map f | f in OWNED_FIELDS && FieldValue(s, f).Some? :: FieldValue(s, f).value
  }

  // Unknown fields are written last, over anything of the same name.
  function MarshalSpec(s: State): Document {
    KnownFields(s) + s.unknown
  }

  lemma OneMoreMerged(known: Document, unknown: Document, todo: set<Field>, k: Field)
    requires todo <= unknown.Keys && k in todo
    ensures (known + (unknown - todo))[k := unknown[k]] == known + (unknown - (todo - {k}))
  {}

  method Marshal(s: State) returns (doc: Document)
    ensures doc == MarshalSpec(s)
  {
    var merged := KnownFields(s);
    ghost var known := merged;
    hide KnownFields;
    assert known + (s.unknown - s.unknown.Keys) == known;
    var todo := s.unknown.Keys;
    while todo != {}
      invariant todo <= s.unknown.Keys
      invariant merged == known + (s.unknown - todo)
      decreases |todo|
    {
      var k :| k in todo;
      OneMoreMerged(known, s.unknown, todo, k);
      merged := merged[k := s.unknown[k]];
      todo := todo - {k};
    }
    assert s.unknown - {} == s.unknown;
    doc := merged;
  }

  // A missing field and an explicit null both leave the zero value.
  function ReadText(doc: Document, field: Field): Result<string, StateError> {
    if field !in doc || doc[field].Null? then Ok("")
    else if doc[field].Text? then Ok(doc[field].s)
    else Err(IllTyped)
  }

  function ReadNumber(doc: Document, field: Field): Result<int, StateError> {
    if field !in doc || doc[field].Null? then Ok(0)
    else if doc[field].Number? then Ok(doc[field].n)
    else Err(IllTyped)
  }

  function ReadEngines(doc: Document): Result<Engines, StateError> {
    if EngineTable !in doc || doc[EngineTable].Null? then Ok(map[])
    else if doc[EngineTable].Table? then Ok(doc[EngineTable].engines)
    else Err(IllTyped)
  }

  predicate WellTyped(doc: Document) {
    && ReadNumber(doc, Version).Ok?
    && ReadText(doc, AdapterVersion).Ok?
    && ReadText(doc, PackHash).Ok?
    && ReadText(doc, ConfigHash).Ok?
    && ReadText(doc, ImageDigest).Ok?
    && ReadText(doc, StagedPackUri).Ok?
    && ReadNumber(doc, StagedPackGeneration).Ok?
    && ReadEngines(doc).Ok?
  }

  function UnknownFields(doc: Document): Document {
    map k | k in doc && k.Other? :: doc[k]
  }

  ghost predicate OnlyUnknown(s: State) {
    forall k :: k in s.unknown ==> k.Other?
  }

  function ReadState(doc: Document): State
    requires WellTyped(doc)
  {
    State(
      ReadNumber(doc, Version).value,
      ReadText(doc, AdapterVersion).value,
      ReadText(doc, PackHash).value,
      ReadText(doc, ConfigHash).value,
      ReadText(doc, ImageDigest).value,
      ReadText(doc, StagedPackUri).value,
      ReadNumber(doc, StagedPackGeneration).value,
      ReadEngines(doc).value,
      UnknownFields(doc))
  }

  function ParseSpec(raw: Option<Document>): Result<State, StateError> {
    match raw
    case None => Ok(NewState())
    case Some(doc) =>
      if !WellTyped(doc) then Err(IllTyped)
      else if ReadState(doc).version > STATE_VERSION then Err(NewerVersion(ReadState(doc).version))
      else Ok(ReadState(doc))
  }

  // None is the empty string of a first deploy.
  method Parse(raw: Option<Document>) returns (r: Result<State, StateError>)
    ensures r == ParseSpec(raw)
  {
    if raw.None? {
      return Ok(NewState());
    }
    var doc := raw.value;
    if !WellTyped(doc) {
      return Err(IllTyped);
    }
    var s := ReadState(doc);
    if s.version > STATE_VERSION {
      return Err(NewerVersion(s.version));
    }
    var unknown: Document := map[];
    var todo := doc.Keys;
    while todo != {}
      invariant todo <= doc.Keys
      invariant unknown == UnknownFields(doc) - todo
      decreases |todo|
    {
      var k :| k in todo;
      if k.Other? {
        unknown := unknown[k := doc[k]];
      }
      todo := todo - {k};
    }
    assert unknown == UnknownFields(doc);
    r := Ok(s.(unknown := unknown));
  }

  // Each known field of the rewritten document is present exactly when it was written.
  lemma KnownRead(s: State)
    requires OnlyUnknown(s)
    ensures forall f :: f in OWNED_FIELDS ==>
              (f in MarshalSpec(s) <==> FieldValue(s, f).Some?)
              && (FieldValue(s, f).Some? ==> MarshalSpec(s)[f] == FieldValue(s, f).value)
  {}

  lemma TextRead(doc: Document, f: Field, v: string)
    requires if v == "" then f !in doc else f in doc && doc[f] == Text(v)
    ensures ReadText(doc, f) == Ok(v)
  {}

  lemma FieldsRead(s: State)
    requires OnlyUnknown(s)
    ensures WellTyped(MarshalSpec(s))
    ensures ReadState(MarshalSpec(s)) == s
  {
    var doc := MarshalSpec(s);
    assert UnknownFields(doc) == s.unknown;
    KnownRead(s);
    hide MarshalSpec, UnknownFields;
    TextRead(doc, AdapterVersion, s.adapterVersion);
    TextRead(doc, PackHash, s.packHash);
    TextRead(doc, ConfigHash, s.configHash);
    TextRead(doc, ImageDigest, s.imageDigest);
    TextRead(doc, StagedPackUri, s.stagedPackUri);
    assert ReadNumber(doc, Version) == Ok(s.version);
    assert ReadNumber(doc, StagedPackGeneration) == Ok(s.stagedPackGeneration);
    assert ReadEngines(doc) == Ok(s.engines);
    hide ReadText, ReadNumber, ReadEngines;
  }

  // What one operation stores, the next one reads back, unknown fields included.
  lemma ParseInvertsMarshal(s: State)
    requires s.version <= STATE_VERSION && OnlyUnknown(s)
    ensures ParseSpec(Some(MarshalSpec(s))) == Ok(s)
  {
    FieldsRead(s);
  }

  // Reading and rewriting a document an older or newer adapter wrote keeps every
  // field this version does not know, and every known field that was not a zero value.
  lemma MarshalKeepsDocument(doc: Document)
    requires ParseSpec(Some(doc)).Ok?
    ensures var rewritten := MarshalSpec(ParseSpec(Some(doc)).value);
            && (forall k :: k in doc && k.Other? ==> k in rewritten && rewritten[k] == doc[k])
            && (forall k :: k in rewritten && k.Other? ==> k in doc)
            && ParseSpec(Some(rewritten)) == ParseSpec(Some(doc))
  {
    var s := ParseSpec(Some(doc)).value;
    FieldsRead(s);
  }

  // A field this version owns may be missing or null, and otherwise has its type.
  ghost predicate Typed(doc: Document, f: Field) {
    f in doc && !doc[f].Null?
    ==> match f
        case Version => doc[f].Number?
        case StagedPackGeneration => doc[f].Number?
        case EngineTable => doc[f].Table?
        case Other(_) => true
        case _ => doc[f].Text?
  }

  ghost predicate ReadsText(doc: Document, f: Field, v: string) {
    v == if f in doc && doc[f].Text? then doc[f].s else ""
  }

  // A document is readable exactly when its fields have their types and its version is
  // not a newer one, which is the error reported; each field reads as what it holds, a
  // missing one as its zero value; and the fields of other names are all kept.
  lemma ReadableExactly(doc: Document)
    ensures ParseSpec(None) == Ok(State(1, "", "", "", "", "", 0, map[], map[]))
    ensures var r, newer := ParseSpec(Some(doc)), Version in doc && doc[Version].Number? && doc[Version].n > 1;
            && (r.Ok? <==> (forall f :: Typed(doc, f)) && !newer)
            && ((forall f :: Typed(doc, f)) && newer ==> r == Err(NewerVersion(doc[Version].n)))
            && (r.Ok? ==> ReadsAll(doc, r.value))
  {
    if WellTyped(doc) {
      forall f
        ensures Typed(doc, f)
      {}
    } else {
      assert exists f :: f in OWNED_FIELDS && !Typed(doc, f) by {
        IllTypedField(doc);
      }
    }
  }

  lemma IllTypedField(doc: Document)
    requires !WellTyped(doc)
    ensures exists f :: f in OWNED_FIELDS && !Typed(doc, f)
  {
    if ReadNumber(doc, Version).Err? {
      assert !Typed(doc, Version);
    } else if ReadNumber(doc, StagedPackGeneration).Err? {
      assert !Typed(doc, StagedPackGeneration);
    } else if ReadEngines(doc).Err? {
      assert !Typed(doc, EngineTable);
    } else if ReadText(doc, AdapterVersion).Err? {
      assert !Typed(doc, AdapterVersion);
    } else if ReadText(doc, PackHash).Err? {
      assert !Typed(doc, PackHash);
    } else if ReadText(doc, ConfigHash).Err? {
      assert !Typed(doc, ConfigHash);
    } else if ReadText(doc, ImageDigest).Err? {
      assert !Typed(doc, ImageDigest);
    } else {
      assert !Typed(doc, StagedPackUri);
    }
  }

  ghost predicate ReadsAll(doc: Document, s: State) {
    && ReadsText(doc, AdapterVersion, s.adapterVersion) && ReadsText(doc, PackHash, s.packHash)
    && ReadsText(doc, ConfigHash, s.configHash) && ReadsText(doc, ImageDigest, s.imageDigest)
    && ReadsText(doc, StagedPackUri, s.stagedPackUri)
    && s.version == (if Version in doc && doc[Version].Number? then doc[Version].n else 0)
    && s.stagedPackGeneration
       == (if StagedPackGeneration in doc && doc[StagedPackGeneration].Number? then doc[StagedPackGeneration].n else 0)
    && s.engines == (if EngineTable in doc && doc[EngineTable].Table? then doc[EngineTable].engines else map[])
    && (forall k :: k in s.unknown <==> k in doc && k.Other?)
    && (forall k :: k in s.unknown ==> s.unknown[k] == doc[k])
  }
}
