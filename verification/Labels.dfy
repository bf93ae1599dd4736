/** Turning arbitrary text into GCP labels (internal/vertex/labels.go, labels_build.go).

    Lower-casing is the parameter `lower`, one character at a time; the only fact
    used about it is that it fixes the characters a label may hold. */
module Labels {
  import opened Texts

  const MAX_LABEL_LEN := 63
  const SEPARATORS := {'-', '_'}

  type Lowering = char -> char

  predicate IsLetter(c: char) { 'a' <= c <= 'z' }

  predicate IsAlnum(c: char) { IsLetter(c) || '0' <= c <= '9' }

  predicate Allowed(c: char) { IsAlnum(c) || c in SEPARATORS }

  ghost predicate Lowers(lower: Lowering) {
    forall c :: Allowed(c) ==> lower(c) == c
  }

  function ToLower(lower: Lowering, s: string): (r: string)
    ensures |r| == |s| && forall i | 0 <= i < |s| :: r[i] == lower(s[i])
  {
    seq(|s|, i requires 0 <= i < |s| => lower(s[i]))
  }

  // Replacing every maximal run of disallowed characters by one hyphen.
  function ReplaceDisallowed(s: string, inRun: bool := false): (r: string)
    ensures |r| <= |s|
    ensures forall i | 0 <= i < |r| :: Allowed(r[i])
  {
    if s == [] then []
    else if Allowed(s[0]) then [s[0]] + ReplaceDisallowed(s[1..])
    else if inRun then ReplaceDisallowed(s[1..], true)
    else ['-'] + ReplaceDisallowed(s[1..], true)
  }

  function Trim(s: string): string {
    TrimLeft(TrimRight(s, SEPARATORS), SEPARATORS)
  }

  function SanitizeValue(lower: Lowering, s: string): string {
    if s == "" then ""
    else
      var out := Trim(ReplaceDisallowed(ToLower(lower, s)));
      if |out| > MAX_LABEL_LEN then Trim(out[..MAX_LABEL_LEN]) else out
  }

  // A key must start with a letter: anything else is prefixed rather than stripped.
  function PrefixKey(value: string): string {
    if value == "" || IsLetter(value[0]) then value
    else
      var prefixed := ['k'] + value;
      if |prefixed| > MAX_LABEL_LEN then prefixed[..MAX_LABEL_LEN] else prefixed
  }

  function SanitizeKey(lower: Lowering, s: string): string {
    PrefixKey(SanitizeValue(lower, s))
  }

  // ---- What a sanitized label looks like ----

  predicate LabelText(s: string) {
    |s| <= MAX_LABEL_LEN && forall i | 0 <= i < |s| :: Allowed(s[i])
  }

  predicate ValueShape(s: string) {
    LabelText(s) && (s == "" || (IsAlnum(s[0]) && IsAlnum(s[|s| - 1])))
  }

  predicate KeyShape(s: string) {
    LabelText(s) && (s == "" || IsLetter(s[0]))
  }

  lemma TrimAllowed(s: string)
    requires forall i | 0 <= i < |s| :: Allowed(s[i])
    ensures |Trim(s)| <= |s|
    ensures forall i | 0 <= i < |Trim(s)| :: Allowed(Trim(s)[i])
    ensures Trim(s) == "" || (IsAlnum(Trim(s)[0]) && IsAlnum(Trim(s)[|Trim(s)| - 1]))
  {}

  lemma {:induction false} SanitizeValueShape(lower: Lowering, s: string)
    ensures ValueShape(SanitizeValue(lower, s))
  {
    var cleaned := ReplaceDisallowed(ToLower(lower, s));
    TrimAllowed(cleaned);
    var out := Trim(cleaned);
    if |out| > MAX_LABEL_LEN {
      TrimAllowed(out[..MAX_LABEL_LEN]);
    }
  }

  lemma PrefixKeyShape(value: string)
    requires LabelText(value)
    ensures KeyShape(PrefixKey(value))
  {}

  lemma SanitizeKeyShape(lower: Lowering, s: string)
    ensures KeyShape(SanitizeKey(lower, s))
  {
    SanitizeValueShape(lower, s);
    PrefixKeyShape(SanitizeValue(lower, s));
  }

  lemma {:induction false} ReplaceKeepsAllowed(s: string)
    requires forall i | 0 <= i < |s| :: Allowed(s[i])
    ensures ReplaceDisallowed(s) == s
  {
    if s != [] {
      ReplaceKeepsAllowed(s[1..]);
    }
  }

  // On characters a label may hold, cleaning is trimming and nothing else.
  lemma {:induction false} SanitizeValueOfLabelText(lower: Lowering, s: string)
    requires Lowers(lower) && LabelText(s)
    ensures SanitizeValue(lower, s) == Trim(s)
  {
    assert ToLower(lower, s) == s;
    ReplaceKeepsAllowed(s);
    TrimAllowed(s);
  }

  lemma TrimFixes(s: string)
    requires ValueShape(s)
    ensures Trim(s) == s
  {}

  lemma SanitizeValueFixes(lower: Lowering, s: string)
    requires Lowers(lower) && ValueShape(s)
    ensures SanitizeValue(lower, s) == s
  {
    SanitizeValueOfLabelText(lower, s);
    TrimFixes(s);
  }

  // A sanitized value is a label value, and sanitizing it again changes nothing.
  lemma {:induction false} SanitizeValueIdempotent(lower: Lowering, s: string)
    requires Lowers(lower)
    ensures ValueShape(SanitizeValue(lower, s))
    ensures SanitizeValue(lower, SanitizeValue(lower, s)) == SanitizeValue(lower, s)
  {
    SanitizeValueShape(lower, s);
    SanitizeValueFixes(lower, SanitizeValue(lower, s));
  }

  // ---- What a sanitized label keeps ----

  // The letters and digits of a text, in order.
  function Alnums(s: string): string {
    if s == [] then [] else (if IsAlnum(s[0]) then [s[0]] else []) + Alnums(s[1..])
  }

  lemma {:induction false} AlnumsConcat(p: string, q: string)
    ensures Alnums(p + q) == Alnums(p) + Alnums(q)
  {
    if p == [] {
      assert p + q == q;
    } else {
      assert (p + q)[0] == p[0] && (p + q)[1..] == p[1..] + q;
      AlnumsConcat(p[1..], q);
      var head := if IsAlnum(p[0]) then [p[0]] else [];
      assert Alnums(p + q) == head + Alnums(p[1..] + q) && Alnums(p) == head + Alnums(p[1..]);
      hide Alnums, IsAlnum;
    }
  }

  lemma {:induction false} SeparatorsHaveNone(s: string)
    requires forall i | 0 <= i < |s| :: s[i] in SEPARATORS
    ensures Alnums(s) == []
  {
    if s != [] {
      SeparatorsHaveNone(s[1..]);
    }
  }

  // Trimming takes separators off both ends and nothing else.
  lemma TrimParts(s: string) returns (lead: string, trail: string)
    ensures s == lead + Trim(s) + trail
    ensures forall i | 0 <= i < |lead| :: lead[i] in SEPARATORS
    ensures forall i | 0 <= i < |trail| :: trail[i] in SEPARATORS
  {
    hide TrimRight, TrimLeft;
    var right := TrimRight(s, SEPARATORS);
    lead, trail := right[..|right| - |Trim(s)|], s[|right|..];
    assert right == lead + Trim(s);
  }

  lemma {:induction false} TrimKeepsAlnums(s: string)
    ensures |Trim(s)| <= |s|
    ensures Alnums(Trim(s)) == Alnums(s)
  {
    hide Alnums, Trim;
    var lead, trail := TrimParts(s);
    SeparatorsHaveNone(lead);
    SeparatorsHaveNone(trail);
    AlnumsConcat(lead + Trim(s), trail);
    AlnumsConcat(lead, Trim(s));
    assert [] + Alnums(Trim(s)) + [] == Alnums(Trim(s));
  }

  lemma CutKeepsStart(s: string, n: nat)
    requires n <= |s|
    ensures Alnums(s[..n]) <= Alnums(s)
  {
    hide Alnums;
    AlnumsConcat(s[..n], s[n..]);
    assert s == s[..n] + s[n..];
  }

  lemma {:induction false} ReplaceKeepsAlnums(s: string, inRun: bool)
    ensures Alnums(ReplaceDisallowed(s, inRun)) == Alnums(s)
  {
    if s != [] {
      ReplaceKeepsAlnums(s[1..], if Allowed(s[0]) then false else true);
      var rest := ReplaceDisallowed(s[1..], !Allowed(s[0]));
      if Allowed(s[0]) {
        assert ([s[0]] + rest)[1..] == rest;
      } else {
        assert (['-'] + rest)[1..] == rest;
      }
    }
  }

  // Sanitizing keeps the letters and digits of the lowered text, in order: all of
  // them when they fit, and otherwise only the end is cut.
  lemma SanitizeValueKeepsAlnums(lower: Lowering, s: string)
    ensures Alnums(SanitizeValue(lower, s)) <= Alnums(ToLower(lower, s))
    ensures |s| <= MAX_LABEL_LEN ==> Alnums(SanitizeValue(lower, s)) == Alnums(ToLower(lower, s))
  {
    hide Alnums, ReplaceDisallowed, Trim, ToLower;
    var cleaned := ReplaceDisallowed(ToLower(lower, s));
    var out := Trim(cleaned);
    ReplaceKeepsAlnums(ToLower(lower, s), false);
    TrimKeepsAlnums(cleaned);
    if |out| > MAX_LABEL_LEN {
      TrimKeepsAlnums(out[..MAX_LABEL_LEN]);
      CutKeepsStart(out, MAX_LABEL_LEN);
    }
    if s == "" {
      assert ToLower(lower, s) == "";
    }
  }

  // ---- What a sanitized label separates ----

  // Each character of out comes from a place in s, in order: a legal one from itself, a
  // hyphen perhaps from a run of characters no label may hold, and nothing else in
  // between is passed over.
  ghost predicate ComesFrom(out: string, s: string, places: seq<nat>) {
    && |places| == |out|
    && (forall i :: 0 <= i < |out| ==> places[i] < |s| && out[i] == if Allowed(s[places[i]]) then s[places[i]] else '-')
    && (forall i :: 0 <= i < |out| - 1 ==> places[i] < places[i + 1] && PassedOver(s, places[i], places[i + 1]))
  }

  // From one place straight to the next, or over the rest of a run of disallowed characters.
  ghost predicate PassedOver(s: string, p: nat, q: nat) {
    && p < q < |s|
    && if Allowed(s[p]) then q == p + 1 else Allowed(s[q]) && forall k :: p < k < q ==> !Allowed(s[k])
  }

  // Where the first character kept of s comes from.
  ghost predicate StartsFrom(s: string, inRun: bool, places: seq<nat>) {
    if places == [] then (if inRun then forall k :: 0 <= k < |s| ==> !Allowed(s[k]) else s == [])
    else if !inRun then places[0] == 0 && s != []
    else places[0] < |s| && Allowed(s[places[0]]) && forall k :: 0 <= k < places[0] ==> !Allowed(s[k])
  }

  ghost function Shifted(places: seq<nat>): (shifted: seq<nat>)
    ensures |shifted| == |places| && forall i :: 0 <= i < |places| ==> shifted[i] == places[i] + 1
  {
    seq(|places|, i requires 0 <= i < |places| => places[i] + 1)
  }

  lemma ShiftedComesFrom(out: string, s: string, places: seq<nat>)
    requires s != [] && ComesFrom(out, s[1..], places)
    ensures ComesFrom(out, s, Shifted(places))
  {
    forall i | 0 <= i < |out| - 1
      ensures PassedOver(s, places[i] + 1, places[i + 1] + 1)
    {
      assert PassedOver(s[1..], places[i], places[i + 1]);
      assert forall k :: places[i] + 1 < k < places[i + 1] + 1 ==> s[k] == s[1..][k - 1];
    }
  }

  lemma ComesFromCons(out: string, s: string, places: seq<nat>, first: char)
    requires s != [] && ComesFrom(out, s[1..], places) && StartsFrom(s[1..], !Allowed(s[0]), places)
    requires first == if Allowed(s[0]) then s[0] else '-'
    ensures ComesFrom([first] + out, s, [0] + Shifted(places))
  {
    ShiftedComesFrom(out, s, places);
    var all := [0] + Shifted(places);
    if places != [] {
      assert forall k :: 0 < k < places[0] + 1 ==> s[k] == s[1..][k - 1];
      assert PassedOver(s, 0, all[1]);
    }
    forall i | 0 < i < |out|
      ensures PassedOver(s, all[i], all[i + 1])
    {
      assert all[i] == Shifted(places)[i - 1] && all[i + 1] == Shifted(places)[i];
    }
  }

  lemma {:induction false} ReplaceComesFrom(s: string, inRun: bool) returns (places: seq<nat>)
    ensures ComesFrom(ReplaceDisallowed(s, inRun), s, places) && StartsFrom(s, inRun, places)
  {
    places := [];
    if s != [] {
      var rest := ReplaceDisallowed(s[1..], !Allowed(s[0]));
      var later := ReplaceComesFrom(s[1..], !Allowed(s[0]));
      if Allowed(s[0]) || !inRun {
        ComesFromCons(rest, s, later, if Allowed(s[0]) then s[0] else '-');
        places := [0] + Shifted(later);
      } else {
        ShiftedComesFrom(rest, s, later);
        places := Shifted(later);
        assert forall k :: 0 < k < |s| ==> s[k] == s[1..][k - 1];
      }
    }
  }

  // A piece of such a text comes from the places of the piece.
  lemma PieceComesFrom(out: string, s: string, places: seq<nat>, from: nat, to: nat)
    requires ComesFrom(out, s, places) && from <= to <= |out|
    ensures ComesFrom(out[from..to], s, places[from..to])
  {}

  lemma TrimIsPiece(s: string) returns (from: nat, to: nat)
    ensures from <= to <= |s| && Trim(s) == s[from..to]
  {
    var lead, trail := TrimParts(s);
    from, to := |lead|, |lead| + |Trim(s)|;
    hide Trim;
  }

  lemma AlnumNeighbours(out: string, s: string, places: seq<nat>)
    requires ComesFrom(out, s, places)
    ensures forall i :: 0 <= i < |out| - 1 && IsAlnum(out[i]) && IsAlnum(out[i + 1]) ==> places[i + 1] == places[i] + 1
  {
    forall i | 0 <= i < |out| - 1 && IsAlnum(out[i]) && IsAlnum(out[i + 1])
      ensures places[i + 1] == places[i] + 1
    {
      assert PassedOver(s, places[i], places[i + 1]);
    }
  }

  // Cleaned, trimmed and cut, every character still comes from the text so.
  lemma ValueComesFrom(lower: Lowering, s: string) returns (places: seq<nat>)
    ensures ComesFrom(SanitizeValue(lower, s), ToLower(lower, s), places)
  {
    var lowered := ToLower(lower, s);
    hide ReplaceDisallowed, Trim, ToLower, ComesFrom;
    places := ReplaceComesFrom(lowered, false);
    var out;
    out, places := TrimmedComesFrom(ReplaceDisallowed(lowered), lowered, places);
    if s == "" {
      EmptyComesFrom(lowered);
      return [];
    }
    if |out| > MAX_LABEL_LEN {
      CutComesFrom(out, lowered, places);
      out, places := TrimmedComesFrom(out[..MAX_LABEL_LEN], lowered, places[..MAX_LABEL_LEN]);
    }
  }

  lemma EmptyComesFrom(s: string)
    ensures ComesFrom("", s, [])
  {}

  lemma CutComesFrom(out: string, s: string, places: seq<nat>)
    requires ComesFrom(out, s, places) && |out| > MAX_LABEL_LEN
    ensures |places| == |out| && ComesFrom(out[..MAX_LABEL_LEN], s, places[..MAX_LABEL_LEN])
  {
    PieceComesFrom(out, s, places, 0, MAX_LABEL_LEN);
    assert out[0..MAX_LABEL_LEN] == out[..MAX_LABEL_LEN] && places[0..MAX_LABEL_LEN] == places[..MAX_LABEL_LEN];
  }

  lemma TrimmedComesFrom(out: string, s: string, places: seq<nat>) returns (trimmed: string, piece: seq<nat>)
    requires ComesFrom(out, s, places)
    ensures trimmed == Trim(out) && ComesFrom(trimmed, s, piece)
  {
    var from, to := TrimIsPiece(out);
    PieceComesFrom(out, s, places, from, to);
    trimmed, piece := Trim(out), places[from..to];
    hide Trim;
  }

  // Every character of a sanitized value comes from the lowered text so. Two letters or
  // digits are neighbours in the value only if they were neighbours there: whatever
  // stood between them is still seen to.
  lemma SanitizeValueSeparates(lower: Lowering, s: string) returns (places: seq<nat>)
    ensures ComesFrom(SanitizeValue(lower, s), ToLower(lower, s), places)
    ensures var value := SanitizeValue(lower, s);
            && |places| == |value|
            && forall i :: 0 <= i < |value| - 1 && IsAlnum(value[i]) && IsAlnum(value[i + 1])
                           ==> places[i + 1] == places[i] + 1
  {
    places := ValueComesFrom(lower, s);
    hide SanitizeValue, ToLower, ComesFrom;
    AlnumNeighbours(SanitizeValue(lower, s), ToLower(lower, s), places);
    AsManyPlaces(SanitizeValue(lower, s), ToLower(lower, s), places);
  }

  lemma AsManyPlaces(out: string, s: string, places: seq<nat>)
    requires ComesFrom(out, s, places)
    ensures |places| == |out|
  {}

  lemma {:induction false} ReplaceAllowedFirst(a: string, rest: string)
    requires forall i | 0 <= i < |a| :: Allowed(a[i])
    ensures ReplaceDisallowed(a + rest) == a + ReplaceDisallowed(rest)
  {
    if a == [] {
      assert a + rest == rest;
    } else {
      assert (a + rest)[1..] == a[1..] + rest;
      ReplaceAllowedFirst(a[1..], rest);
    }
  }

  lemma {:induction false} ReplaceRun(run: string, rest: string, inRun: bool)
    requires forall i | 0 <= i < |run| :: !Allowed(run[i])
    requires rest != "" && Allowed(rest[0]) && (run != "" || inRun)
    ensures ReplaceDisallowed(run + rest, inRun) == (if inRun then [] else ['-']) + ReplaceDisallowed(rest)
  {
    if run == [] {
      assert run + rest == rest;
    } else {
      assert (run + rest)[1..] == run[1..] + rest;
      ReplaceRun(run[1..], rest, true);
    }
  }

  // What a label may not hold becomes one hyphen between what it may.
  lemma SanitizeValueOfRun(lower: Lowering, a: string, run: string, b: string)
    requires Lowers(lower) && a != "" && run != "" && b != "" && ValueShape(a) && ValueShape(b)
    requires forall i | 0 <= i < |run| :: !Allowed(lower(run[i]))
    requires |a| + 1 + |b| <= 63
    ensures SanitizeValue(lower, a + run + b) == a + "-" + b
  {
    var lowered := ToLower(lower, run);
    assert ToLower(lower, a + run + b) == a + (lowered + b);
    ReplaceAllowedFirst(a, lowered + b);
    ReplaceRun(lowered, b, false);
    ReplaceKeepsAllowed(b);
    hide ReplaceDisallowed, ToLower;
    assert a + (['-'] + b) == a + "-" + b;
    JoinedShape(a, b);
    TrimFixes(a + "-" + b);
    hide Trim, ValueShape;
  }

  lemma JoinedShape(a: string, b: string)
    requires a != "" && b != "" && ValueShape(a) && ValueShape(b) && |a| + 1 + |b| <= 63
    ensures ValueShape(a + "-" + b)
  {
    var out := a + "-" + b;
    assert out[0] == a[0] && out[|out| - 1] == b[|b| - 1];
    assert forall i :: 0 <= i < |out| ==> out[i] == if i < |a| then a[i] else if i == |a| then '-' else b[i - |a| - 1];
  }

  // A key is its value, or, when that does not start with a letter, the letter k and the
  // value, cut at the end to fit.
  lemma SanitizeKeyKeepsValue(lower: Lowering, s: string)
    ensures var value, key := SanitizeValue(lower, s), SanitizeKey(lower, s);
            if value == "" || 'a' <= value[0] <= 'z' then key == value
            else key != "" && key[0] == 'k' && key[1..] <= value && (|value| < 63 ==> key[1..] == value)
                 && (|value| == 63 ==> |key| == 63)
  {
    SanitizeValueShape(lower, s);
    hide SanitizeValue;
  }

  // The "k" prefix pushed a full-length value over the limit and cut it behind a separator.
  predicate PrefixCutsAtSeparator(value: string) {
    |value| == MAX_LABEL_LEN && !IsLetter(value[0]) && value[MAX_LABEL_LEN - 2] in SEPARATORS
  }

  lemma StartsWithLetter(key: string, lead: string, mid: string, trail: string)
    requires key == lead + mid + trail && key != "" && IsLetter(key[0])
    requires forall i | 0 <= i < |lead| :: lead[i] in SEPARATORS
    requires forall i | 0 <= i < |trail| :: trail[i] in SEPARATORS
    ensures |lead| == 0 && |mid| > 0 && mid[0] == key[0]
  {
    assert key[0] == (lead + mid + trail)[0] == (lead + (mid + trail))[0];
  }

  lemma {:induction false} TrimOfKey(key: string)
    requires KeyShape(key)
    ensures KeyShape(Trim(key)) && ValueShape(Trim(key))
    ensures Trim(key) == key <==> key == "" || key[|key| - 1] !in SEPARATORS
  {
    hide Trim;
    TrimAllowed(key);
    if |key| > 0 {
      var lead, trail := TrimParts(key);
      var mid := Trim(key);
      StartsWithLetter(key, lead, mid, trail);
      if |trail| == 0 {
        assert key == mid;
      } else {
        assert key[|key| - 1] == trail[|trail| - 1];
        assert |key| > |mid|;
      }
    }
  }

  lemma KeyOfKeyIsTrim(lower: Lowering, key: string)
    requires Lowers(lower) && KeyShape(key)
    ensures SanitizeKey(lower, key) == Trim(key)
  {
    SanitizeValueOfLabelText(lower, key);
    TrimOfKey(key);
  }

  lemma PrefixKeyEnd(value: string)
    requires ValueShape(value)
    ensures PrefixCutsAtSeparator(value)
            <==> PrefixKey(value) != "" && PrefixKey(value)[|PrefixKey(value)| - 1] in SEPARATORS
  {}

  // Once is enough for a key exactly when its prefix did not cut at a separator.
  lemma {:induction false} SanitizeKeyFixpoint(lower: Lowering, s: string)
    requires Lowers(lower)
    ensures KeyShape(SanitizeKey(lower, s))
    ensures SanitizeKey(lower, SanitizeKey(lower, s)) == SanitizeKey(lower, s)
            <==> !PrefixCutsAtSeparator(SanitizeValue(lower, s))
  {
    var value, key := SanitizeValue(lower, s), SanitizeKey(lower, s);
    SanitizeValueShape(lower, s);
    SanitizeKeyShape(lower, s);
    KeyOfKeyIsTrim(lower, key);
    TrimOfKey(key);
    PrefixKeyEnd(value);
  }

  // Twice is always enough.
  lemma {:induction false} SanitizeKeyTwiceFixpoint(lower: Lowering, s: string)
    requires Lowers(lower)
    ensures var twice := SanitizeKey(lower, SanitizeKey(lower, s));
            SanitizeKey(lower, twice) == twice
  {
    var key := SanitizeKey(lower, s);
    SanitizeKeyShape(lower, s);
    KeyOfKeyIsTrim(lower, key);
    TrimOfKey(key);
    KeyOfKeyIsTrim(lower, Trim(key));
    TrimOfKey(Trim(key));
  }
}
