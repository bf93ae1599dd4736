/** Whole label maps: collision checks and the merge with the managed labels
    (internal/vertex/labels.go:69-100, labels_build.go).

    The two sanitizers enter as functions; GcpSanitizer is the pair of module Labels. */
module LabelMaps {
  import opened Texts
  import Labels

  const MAX_LABEL_COUNT := 64

  const LABEL_PACK := "promptkit-pack"
  const LABEL_AGENT := "promptkit-agent"
  const LABEL_MANAGED_BY := "promptkit-managed-by"
  const MANAGED_BY_VALUE := "promptarena-deploy-vertex"
  const MANAGED_KEYS := {LABEL_PACK, LABEL_AGENT, LABEL_MANAGED_BY}

  datatype Sanitizer = Sanitizer(key: string -> string, value: string -> string)

  function GcpSanitizer(lower: Labels.Lowering): Sanitizer {
    Sanitizer(s => Labels.SanitizeKey(lower, s), s => Labels.SanitizeValue(lower, s))
  }

  datatype LabelError =
    | TooMany(count: nat)
    | EmptyKey(key: string)
    | Collision(first: string, second: string, sanitized: string)

  ghost predicate InjectiveOn(san: Sanitizer, keys: set<string>) {
    forall a, b :: a in keys && b in keys && san.key(a) == san.key(b) ==> a == b
  }

  ghost predicate NonEmptyOn(san: Sanitizer, keys: set<string>) {
    forall k :: k in keys ==> san.key(k) != ""
  }

  ghost predicate CleanKeys(san: Sanitizer, keys: set<string>) {
    InjectiveOn(san, keys) && NonEmptyOn(san, keys)
  }

  ghost predicate CleanLabels(san: Sanitizer, labels: map<string, string>) {
    |labels| <= MAX_LABEL_COUNT && CleanKeys(san, labels.Keys)
  }

  // At most 64 labels, no key of which becomes empty and no two the same.
  lemma CleanExactly(san: Sanitizer, labels: map<string, string>)
    ensures CleanLabels(san, labels)
            <==> && |labels| <= 64 && (forall k :: k in labels ==> san.key(k) != "")
                 && (forall k, l :: k in labels && l in labels && san.key(k) == san.key(l) ==> k == l)
  {}

  ghost function SanitizedKeys(san: Sanitizer, keys: set<string>): set<string> {
    set k | k in keys :: san.key(k)
  }

  function KeyError(origin: map<string, string>, k: string, sanitized: string): Option<LabelError> {
    if sanitized == "" then Some(EmptyKey(k))
    else if sanitized in origin then Some(Collision(origin[sanitized], k, sanitized))
    else None
  }

  // What the loop knows once these keys have been looked at.
  ghost predicate Seen(
    san: Sanitizer, done: set<string>, origin: map<string, string>, errs: seq<LabelError>, few: bool
  ) {
    && (errs == [] <==> few && CleanKeys(san, done))
    && (errs == [] ==> origin.Keys == SanitizedKeys(san, done))
  }

  lemma SeenNext(san: Sanitizer, done: set<string>, origin: map<string, string>, errs: seq<LabelError>, few: bool,
      k: string)
    requires Seen(san, done, origin, errs, few) && k !in done
    ensures match KeyError(origin, k, san.key(k))
            case Some(e) => Seen(san, done + {k}, origin, errs + [e], few)
            case None => Seen(san, done + {k}, origin[san.key(k) := k], errs, few)
  {}

  // The map is ranged over in whatever order `:|` picks, so the verdict holds for every order.
  method ValidateLabels(san: Sanitizer, labels: map<string, string>) returns (errs: seq<LabelError>)
    ensures errs == [] <==> CleanLabels(san, labels)
  {
    errs := [];
    if |labels| == 0 {
      assert labels.Keys == {};
      return;
    }
    if |labels| > MAX_LABEL_COUNT {
      errs := errs + [TooMany(|labels|)];
    }
    var origin: map<string, string> := map[];
    var todo := labels.Keys;
    ghost var done: set<string> := {};
    ghost var few := |labels| <= MAX_LABEL_COUNT;
    assert Seen(san, done, origin, errs, few);
    while todo != {}
      invariant todo <= labels.Keys && done == labels.Keys - todo
      invariant Seen(san, done, origin, errs, few)
      decreases |todo|
    {
      hide Seen;
      var k :| k in todo;
      SeenNext(san, done, origin, errs, few, k);
      todo, done := todo - {k}, done + {k};
      var err := KeyError(origin, k, san.key(k));
      if err.Some? {
        errs := errs + [err.value];
        continue;
      }
      origin := origin[san.key(k) := k];
    }
    assert done == labels.Keys;
  }

  // The user key a sanitized key came from; unique when sanitizing is injective.
  ghost function OriginOf(san: Sanitizer, keys: set<string>, s: string): (k: string)
    requires s in SanitizedKeys(san, keys)
    ensures k in keys && san.key(k) == s
  {
    var k :| k in keys && san.key(k) == s;
    k
  }

  ghost function UserLabels(san: Sanitizer, labels: map<string, string>): map<string, string> {
    map s | s in SanitizedKeys(san, labels.Keys) ::
      san.value(labels[OriginOf(san, labels.Keys, s)])
  }

  function AddManaged(user: map<string, string>, pack: string, agent: string): map<string, string> {
    user[LABEL_PACK := pack][LABEL_AGENT := agent][LABEL_MANAGED_BY := MANAGED_BY_VALUE]
  }

  ghost function BuiltLabels(
    san: Sanitizer, labels: map<string, string>, packId: string, agent: string
  ): map<string, string> {
    AddManaged(UserLabels(san, labels), san.value(packId), san.value(agent))
  }

  // out holds exactly the user labels of these keys.
  ghost predicate Writes(san: Sanitizer, labels: map<string, string>, keys: set<string>, out: map<string, string>)
    requires keys <= labels.Keys
  {
    && out.Keys == SanitizedKeys(san, keys)
    && forall k :: k in keys ==> out[san.key(k)] == san.value(labels[k])
  }

  lemma WriteOne(san: Sanitizer, labels: map<string, string>, keys: set<string>, out: map<string, string>, k: string)
    requires keys <= labels.Keys && k in labels && k !in keys && Writes(san, labels, keys, out)
    requires InjectiveOn(san, labels.Keys)
    ensures Writes(san, labels, keys + {k}, out[san.key(k) := san.value(labels[k])])
  {}

  lemma WritesAll(san: Sanitizer, labels: map<string, string>, out: map<string, string>)
    requires Writes(san, labels, labels.Keys, out)
    ensures out == UserLabels(san, labels)
  {}

  // The user half of a built map, written in any order.
  method WriteUserLabels(san: Sanitizer, labels: map<string, string>) returns (out: map<string, string>)
    requires InjectiveOn(san, labels.Keys)
    ensures out == UserLabels(san, labels)
  {
    out := map[];
    assert Writes(san, labels, {}, out);
    hide Writes, InjectiveOn, UserLabels, SanitizedKeys;
    var todo := labels.Keys;
    ghost var done: set<string> := {};
    while todo != {}
      invariant todo <= labels.Keys && done == labels.Keys - todo
      invariant Writes(san, labels, done, out)
      decreases |todo|
    {
      var k :| k in todo;
      WriteOne(san, labels, done, out, k);
      out := out[san.key(k) := san.value(labels[k])];
      todo, done := todo - {k}, done + {k};
    }
    assert done == labels.Keys;
    WritesAll(san, labels, out);
  }

  // Whatever order the user labels are written in, the result is the same map.
  method BuildLabels(san: Sanitizer, labels: map<string, string>, packId: string, agent: string)
    returns (r: Result<map<string, string>, seq<LabelError>>)
    ensures r.Ok? <==> CleanLabels(san, labels)
    ensures r.Ok? ==> r.value == BuiltLabels(san, labels, packId, agent)
  {
    var errs := ValidateLabels(san, labels);
    if errs != [] {
      return Err(errs);
    }
    var out := WriteUserLabels(san, labels);
    out := out[LABEL_PACK := san.value(packId)];
    out := out[LABEL_AGENT := san.value(agent)];
    out := out[LABEL_MANAGED_BY := MANAGED_BY_VALUE];
    r := Ok(out);
  }

  lemma ManagedKeysDistinct()
    ensures LABEL_PACK != LABEL_AGENT && LABEL_PACK != LABEL_MANAGED_BY && LABEL_AGENT != LABEL_MANAGED_BY
    ensures |MANAGED_KEYS| == 3
  {}

  lemma AddManagedContent(user: map<string, string>, pack: string, agent: string)
    ensures var out := AddManaged(user, pack, agent);
            && out.Keys == user.Keys + MANAGED_KEYS
            && (forall s :: s in user && s !in MANAGED_KEYS ==> out[s] == user[s])
            && out[LABEL_PACK] == pack
            && out[LABEL_AGENT] == agent
            && out[LABEL_MANAGED_BY] == MANAGED_BY_VALUE
  {}

  // Every user label survives unless it lands on a managed key, the managed ones
  // always win, and nothing else appears.
  lemma BuiltLabelsContent(san: Sanitizer, labels: map<string, string>, packId: string, agent: string)
    requires CleanLabels(san, labels)
    ensures var out := BuiltLabels(san, labels, packId, agent);
            && out.Keys == SanitizedKeys(san, labels.Keys) + MANAGED_KEYS
            && (forall k :: k in labels && san.key(k) !in MANAGED_KEYS
                            ==> san.key(k) in out && out[san.key(k)] == san.value(labels[k]))
            && out[LABEL_PACK] == san.value(packId)
            && out[LABEL_AGENT] == san.value(agent)
            && out[LABEL_MANAGED_BY] == MANAGED_BY_VALUE
  {}

  predicate LegalEntry(key: string, value: string) {
    key != "" && Labels.KeyShape(key) && Labels.ValueShape(value)
  }

  ghost predicate LegalEntries(labels: map<string, string>) {
    forall s :: s in labels ==> LegalEntry(s, labels[s])
  }

  lemma ManagedKeysLegal(key: string)
    requires key in MANAGED_KEYS
    ensures key != "" && Labels.KeyShape(key)
  {}

  lemma ManagedByValueLegal()
    ensures Labels.ValueShape(MANAGED_BY_VALUE)
  {}

  lemma UpdateLegal(labels: map<string, string>, key: string, value: string)
    requires LegalEntries(labels) && LegalEntry(key, value)
    ensures LegalEntries(labels[key := value])
  {}

  lemma AddManagedLegal(user: map<string, string>, pack: string, agent: string)
    requires LegalEntries(user) && Labels.ValueShape(pack) && Labels.ValueShape(agent)
    ensures LegalEntries(AddManaged(user, pack, agent))
  {
    ManagedKeysLegal(LABEL_PACK);
    ManagedKeysLegal(LABEL_AGENT);
    ManagedKeysLegal(LABEL_MANAGED_BY);
    ManagedByValueLegal();
    var withPack := user[LABEL_PACK := pack];
    UpdateLegal(user, LABEL_PACK, pack);
    UpdateLegal(withPack, LABEL_AGENT, agent);
    UpdateLegal(withPack[LABEL_AGENT := agent], LABEL_MANAGED_BY, MANAGED_BY_VALUE);
  }

  ghost predicate Legal(san: Sanitizer) {
    && (forall s :: Labels.KeyShape(san.key(s)))
    && (forall s :: Labels.ValueShape(san.value(s)))
  }

  lemma GcpSanitizerLegal(lower: Labels.Lowering)
    ensures Legal(GcpSanitizer(lower))
  {
    var san := GcpSanitizer(lower);
    forall s
      ensures Labels.KeyShape(san.key(s))
    {
      Labels.SanitizeKeyShape(lower, s);
    }
    forall s
      ensures Labels.ValueShape(san.value(s))
    {
      Labels.SanitizeValueShape(lower, s);
    }
  }

  lemma UserLabelsLegal(san: Sanitizer, labels: map<string, string>)
    requires Legal(san) && NonEmptyOn(san, labels.Keys)
    ensures LegalEntries(UserLabels(san, labels))
  {}

  // Sanitizers with legal outputs make every entry of a built map a legal label.
  lemma BuiltLabelsLegal(san: Sanitizer, labels: map<string, string>, packId: string, agent: string)
    requires Legal(san) && CleanLabels(san, labels)
    ensures LegalEntries(BuiltLabels(san, labels, packId, agent))
  {
    UserLabelsLegal(san, labels);
    AddManagedLegal(UserLabels(san, labels), san.value(packId), san.value(agent));
  }

  // The count is checked before the three managed labels are added, so a built
  // map can exceed the limit; it stays within it exactly when this sum does.
  lemma {:induction false} BuiltLabelsCount(
    san: Sanitizer, labels: map<string, string>, packId: string, agent: string
  )
    requires CleanLabels(san, labels)
    ensures |BuiltLabels(san, labels, packId, agent)|
            == |labels| + 3 - |SanitizedKeys(san, labels.Keys) * MANAGED_KEYS|
  {
    var out := BuiltLabels(san, labels, packId, agent);
    var keys := SanitizedKeys(san, labels.Keys);
    AddManagedContent(UserLabels(san, labels), san.value(packId), san.value(agent));
    ImageSize(san, labels.Keys);
    assert out.Keys == keys + MANAGED_KEYS;
    hide BuiltLabels, SanitizedKeys;
    UnionSize(keys, MANAGED_KEYS);
    ManagedKeysDistinct();
  }

  lemma UnionSize(a: set<string>, b: set<string>)
    ensures |a + b| == |a| + |b| - |a * b|
  {}

  lemma {:induction false} ImageSize(san: Sanitizer, keys: set<string>)
    requires InjectiveOn(san, keys)
    ensures |SanitizedKeys(san, keys)| == |keys|
    decreases |keys|
  {
    if keys != {} {
      var k :| k in keys;
      ImageSize(san, keys - {k});
      assert SanitizedKeys(san, keys) == SanitizedKeys(san, keys - {k}) + {san.key(k)};
    }
  }

  // ---- The limit can be passed ----

  function As(n: nat): (s: string)
    ensures |s| == n && forall i | 0 <= i < n :: s[i] == 'a'
  {
    seq(n, _ => 'a')
  }

  // The keys "a", "aa", ... up to n letters.
  ghost function AKeys(n: nat): set<string> {
    if n == 0 then {} else AKeys(n - 1) + {As(n)}
  }

  lemma {:induction false} AKeysFacts(n: nat)
    ensures |AKeys(n)| == n
    ensures forall s :: s in AKeys(n) ==> 1 <= |s| <= n && s == As(|s|)
  {
    if n > 0 {
      AKeysFacts(n - 1);
    }
  }

  lemma AKeyFixed(lower: Labels.Lowering, n: nat)
    requires Labels.Lowers(lower) && 1 <= n <= Labels.MAX_LABEL_LEN
    ensures Labels.SanitizeKey(lower, As(n)) == As(n) != ""
    ensures As(n) !in MANAGED_KEYS
  {
    Labels.SanitizeValueFixes(lower, As(n));
    assert As(n)[0] == 'a' && LABEL_PACK[0] == LABEL_AGENT[0] == LABEL_MANAGED_BY[0] == 'p';
  }

  // Keys the sanitizer leaves alone, none of them managed.
  ghost predicate Untouched(san: Sanitizer, keys: set<string>) {
    forall k :: k in keys ==> san.key(k) == k && k != "" && k !in MANAGED_KEYS
  }

  lemma UntouchedCount(san: Sanitizer, labels: map<string, string>, packId: string, agent: string)
    requires Untouched(san, labels.Keys) && |labels| <= MAX_LABEL_COUNT
    ensures CleanLabels(san, labels)
    ensures |BuiltLabels(san, labels, packId, agent)| == |labels| + 3
  {
    assert CleanKeys(san, labels.Keys) && SanitizedKeys(san, labels.Keys) == labels.Keys;
    assert labels.Keys * MANAGED_KEYS == {};
    hide BuiltLabels, CleanKeys, SanitizedKeys, Untouched;
    BuiltLabelsCount(san, labels, packId, agent);
  }

  lemma AKeysUntouched(lower: Labels.Lowering, n: nat)
    requires Labels.Lowers(lower) && n <= Labels.MAX_LABEL_LEN
    ensures Untouched(GcpSanitizer(lower), AKeys(n))
  {
    AKeysFacts(n);
    hide AKeys;
    forall k | k in AKeys(n)
      ensures GcpSanitizer(lower).key(k) == k && k != "" && k !in MANAGED_KEYS
    {
      AKeyFixed(lower, |k|);
    }
  }

  lemma CleanMapOfSize(lower: Labels.Lowering, n: nat, packId: string, agent: string)
    returns (labels: map<string, string>)
    requires Labels.Lowers(lower) && n <= Labels.MAX_LABEL_LEN
    ensures CleanLabels(GcpSanitizer(lower), labels) && |labels| == n
    ensures |BuiltLabels(GcpSanitizer(lower), labels, packId, agent)| == n + 3
  {
    hide Untouched, GcpSanitizer, AKeys, CleanLabels, BuiltLabels;
    labels := map k | k in AKeys(n) :: "v";
    AKeysFacts(n);
    AKeysUntouched(lower, n);
    assert labels.Keys == AKeys(n);
    assert |labels| == |labels.Keys|;
    UntouchedCount(GcpSanitizer(lower), labels, packId, agent);
  }

  // Sixty-two clean labels, well within the limit that is checked, build a map of
  // sixty-five, one more than the limit.
  lemma LimitCanBePassed(lower: Labels.Lowering, packId: string, agent: string)
    requires Labels.Lowers(lower)
    ensures exists labels :: CleanLabels(GcpSanitizer(lower), labels) && |labels| == 62
                             && |BuiltLabels(GcpSanitizer(lower), labels, packId, agent)| == MAX_LABEL_COUNT + 1
  {
    var labels := CleanMapOfSize(lower, 62, packId, agent);
  }
}
