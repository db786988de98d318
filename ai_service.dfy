/**
 * The deterministic parts of the AI ordering agent
 * (app/services/ai_service.py): the quantity patterns, the catalog match
 * over a message, the canned replies, the context window sent to the
 * model, the parse fallback with the auto-create gate, and the order
 * request built from the model's entities.
 *
 * The model call and `json.loads` are parameters: the reply text (None
 * when the call raises) and a decoder (None for a JSONDecodeError).
 */
module AiService {
  import opened Wrappers
  import opened Seqs
  import opened Text
  import opened JsonValues
  import OrderService

  // ---------------------------------------------------------------- quantity patterns

  /** The number of consecutive digits of `t` from position `p`. */
  function DigitRun(t: string, p: nat): (k: nat)
    requires p <= |t|
    ensures p + k <= |t| && AllDigits(t[p..p + k])
    ensures p + k == |t| || !IsDigit(t[p + k])
    decreases |t| - p
  {
    if p < |t| && IsDigit(t[p]) then
      var k := DigitRun(t, p + 1);
      assert t[p..p + 1 + k] == [t[p]] + t[p + 1..p + 1 + k];
      1 + k
    else 0
  }

  /** The number of consecutive whitespace characters of `t` from position `p`. */
  function SpaceRun(t: string, p: nat): (k: nat)
    requires p <= |t|
    ensures p + k <= |t|
    ensures p + k == |t| || !IsSpace(t[p + k])
    decreases |t| - p
  {
    if p < |t| && IsSpace(t[p]) then 1 + SpaceRun(t, p + 1) else 0
  }

  /** `\s*name` matches at `c`. */
  predicate NameAfterSpaces(t: string, c: nat, name: string)
    decreases |t| - c
  {
    OccursAt(t, name, c) || (c < |t| && IsSpace(t[c]) && NameAfterSpaces(t, c + 1, name))
  }

  /** `x?\s*name` matches at `a`. */
  predicate XThenName(t: string, a: nat, name: string) {
    (a < |t| && t[a] == 'x' && NameAfterSpaces(t, a + 1, name)) || NameAfterSpaces(t, a, name)
  }

  /** `\s*x?\s*name` matches at `q`. */
  predicate SepName(t: string, q: nat, name: string)
    decreases |t| - q
  {
    XThenName(t, q, name) || (q < |t| && IsSpace(t[q]) && SepName(t, q + 1, name))
  }

  /** What follows the digit group: `\s*x?\s*name` (`allowX`) or `\s*name`. */
  predicate Rest(t: string, q: nat, name: string, allowX: bool) {
    if allowX then SepName(t, q, name) else NameAfterSpaces(t, q, name)
  }

  /** `t[p..p + k]` is a run of digits whose value is `v`. */
  predicate DigitsAt(t: string, p: int, k: int, v: nat) {
    0 <= p && 1 <= k && p + k <= |t| && AllDigits(t[p..p + k]) && DigitsValue(t[p..p + k]) == v
  }

  /** The greedy `\d+` backing off: the longest `j <= k` after which the rest matches. */
  function LongestCapture(t: string, p: nat, k: nat, name: string, allowX: bool): (r: Option<nat>)
    requires p + k <= |t|
    ensures r.Some? ==> 1 <= r.value <= k && Rest(t, p + r.value, name, allowX)
    ensures r.None? ==> forall q :: p + 1 <= q <= p + k ==> !Rest(t, q, name, allowX)
    ensures r.Some? ==> forall q :: p + r.value < q <= p + k ==> !Rest(t, q, name, allowX)
    decreases k
  {
    if k == 0 then None
    else if Rest(t, p + k, name, allowX) then Some(k)
    else LongestCapture(t, p, k - 1, name, allowX)
  }

  /**
   * `re.search` of `(\d+)\s*x?\s*name` (`allowX`) or `(\d+)\s*name` from
   * position `p`: the first start whose digits can be followed by the rest,
   * and the value of the captured digits (`SearchDigitsFirstIsLeftmost`).
   */
  function SearchDigitsFirst(t: string, p: nat, name: string, allowX: bool): Option<nat>
    requires p <= |t|
    decreases |t| - p
  {
    if p == |t| then None
    else match CaptureAt(t, p, name, allowX)
      case Some(v) => Some(v)
      case None => SearchDigitsFirst(t, p + 1, name, allowX)
  }

  /** The value the pattern captures when the match starts at `p`, if it matches there. */
  function CaptureAt(t: string, p: nat, name: string, allowX: bool): Option<nat>
    requires p <= |t|
  {
    match LongestCapture(t, p, DigitRun(t, p), name, allowX)
    case Some(k) =>
      assert t[p..p + k] == t[p..p + DigitRun(t, p)][..k];
      Some(DigitsValue(t[p..p + k]))
    case None => None
  }

  /** Where the digits of `name\s*x?\s*(\d+)` start, after the name ends at `q`. */
  function DigitStart(t: string, q: nat): (c: nat)
    requires q <= |t|
    ensures q <= c <= |t|
  {
    var a := q + SpaceRun(t, q);
    var b := if a < |t| && t[a] == 'x' then a + 1 else a;
    b + SpaceRun(t, b)
  }

  /** `re.search` of `name\s*x?\s*(\d+)` from `p`: the value of the greedy digit group. */
  function SearchNameFirst(t: string, p: nat, name: string): (r: Option<nat>)
    requires p <= |t|
    ensures r.Some? ==> exists q :: (p <= q && OccursAt(t, name, q)
      && DigitsAt(t, DigitStart(t, q + |name|), DigitRun(t, DigitStart(t, q + |name|)), r.value))
    decreases |t| - p
  {
    match NameCaptureAt(t, p, name)
    case Some(v) =>
      var c := DigitStart(t, p + |name|);
      assert DigitsAt(t, c, DigitRun(t, c), v);
      Some(v)
    case None => if p == |t| then None else SearchNameFirst(t, p + 1, name)
  }

  /** The value the pattern captures when the match starts at `p`, if it matches there. */
  function NameCaptureAt(t: string, p: nat, name: string): (r: Option<nat>)
    requires p <= |t|
    ensures r.Some? ==> p + |name| <= |t| && OccursAt(t, name, p) && DigitRun(t, DigitStart(t, p + |name|)) > 0
    ensures r.Some? ==> r.value == GroupValue(t, DigitStart(t, p + |name|))
  {
    if p + |name| <= |t| && OccursAt(t, name, p) && DigitRun(t, DigitStart(t, p + |name|)) > 0 then
      Some(GroupValue(t, DigitStart(t, p + |name|)))
    else None
  }

  /** A longer run of digits from `p` than `DigitRun` is not all digits. */
  lemma {:induction false} DigitRunIsLongest(t: string, p: nat, k: nat)
    requires p + k <= |t| && AllDigits(t[p..p + k])
    ensures k <= DigitRun(t, p)
    decreases k
  {
    if k > 0 {
      assert IsDigit(t[p..p + k][0]);
      assert t[p + 1..p + k] == t[p..p + k][1..];
      DigitRunIsLongest(t, p + 1, k - 1);
    }
  }

  /** `(\d+)` captures `t[q..q + k]` and the rest of the pattern matches after it. */
  predicate DigitsMatch(t: string, q: nat, k: nat, name: string, allowX: bool) {
    1 <= k && q + k <= |t| && AllDigits(t[q..q + k]) && Rest(t, q + k, name, allowX)
  }

  /** No digit group at `q` is followed by a match of the rest. */
  ghost predicate NoDigitsMatchAt(t: string, q: nat, name: string, allowX: bool) {
    forall k: nat :: !DigitsMatch(t, q, k, name, allowX)
  }

  /**
   * The match `re.search` finds from `p`: `t[q..q + k]` is followed by the
   * rest, no start in `[p, q)` matches, and no longer group at `q` does.
   */
  ghost predicate LeftmostDigitsMatch(t: string, p: nat, q: nat, k: nat, name: string, allowX: bool) {
    && p <= q && DigitsMatch(t, q, k, name, allowX)
    && (forall q': nat :: p <= q' < q ==> NoDigitsMatchAt(t, q', name, allowX))
    && (forall k': nat :: k < k' ==> !DigitsMatch(t, q, k', name, allowX))
  }

  /** A digit group that `LongestCapture` keeps at `p` is the leftmost, longest match from `p`. */
  lemma CaptureIsLeftmost(t: string, p: nat, k: nat, name: string, allowX: bool)
    requires p <= |t| && LongestCapture(t, p, DigitRun(t, p), name, allowX) == Some(k)
    ensures LeftmostDigitsMatch(t, p, p, k, name, allowX)
  {
    var run := DigitRun(t, p);
    assert t[p..p + k] == t[p..p + run][..k];
    forall k': nat | DigitsMatch(t, p, k', name, allowX) ensures k' <= run {
      DigitRunIsLongest(t, p, k');
    }
  }

  /** When `LongestCapture` keeps nothing at `p`, no digit group there matches. */
  lemma NoCaptureNoMatch(t: string, p: nat, name: string, allowX: bool)
    requires p <= |t| && CaptureAt(t, p, name, allowX).None?
    ensures NoDigitsMatchAt(t, p, name, allowX)
  {
    forall k: nat | DigitsMatch(t, p, k, name, allowX) ensures k <= DigitRun(t, p) {
      DigitRunIsLongest(t, p, k);
    }
  }

  /**
   * `r` is what `re.search` answers from `p`: None when no start from `p`
   * on matches, otherwise the value of the leftmost match, with the
   * longest digit group after which the rest of the pattern still matches.
   */
  ghost predicate DigitsSearchAnswer(t: string, p: nat, r: Option<nat>, name: string, allowX: bool) {
    && (r.None? ==> forall q: nat :: p <= q ==> NoDigitsMatchAt(t, q, name, allowX))
    && (r.Some? ==> exists q: nat, k: nat :: LeftmostDigitsMatch(t, p, q, k, name, allowX) && r.value == DigitsValue(t[q..q + k]))
  }

  /** `CaptureAt` answers with the group `LongestCapture` keeps at `p`. */
  lemma CaptureAtValue(t: string, p: nat, k: nat, name: string, allowX: bool)
    requires p <= |t| && LongestCapture(t, p, DigitRun(t, p), name, allowX) == Some(k)
    requires p + k <= |t| && AllDigits(t[p..p + k])
    ensures CaptureAt(t, p, name, allowX) == Some(DigitsValue(t[p..p + k]))
  {
  }

  /** The group `LongestCapture` keeps at `p` is all digits. */
  lemma CaptureIsDigits(t: string, p: nat, k: nat, name: string, allowX: bool)
    requires p <= |t| && LongestCapture(t, p, DigitRun(t, p), name, allowX) == Some(k)
    ensures p + k <= |t| && AllDigits(t[p..p + k])
  {
    assert t[p..p + k] == t[p..p + DigitRun(t, p)][..k];
  }

  /** A capture at `p` is the answer from `p`. */
  lemma CaptureAnswers(t: string, p: nat, name: string, allowX: bool)
    requires p < |t| && CaptureAt(t, p, name, allowX).Some?
    ensures DigitsSearchAnswer(t, p, CaptureAt(t, p, name, allowX), name, allowX)
  {
    var k := LongestCapture(t, p, DigitRun(t, p), name, allowX).value;
    CaptureIsDigits(t, p, k, name, allowX);
    CaptureAtValue(t, p, k, name, allowX);
    CaptureIsLeftmost(t, p, k, name, allowX);
    assert LeftmostDigitsMatch(t, p, p, k, name, allowX)
      && CaptureAt(t, p, name, allowX).value == DigitsValue(t[p..p + k]);
  }

  /** Nothing matches from the end of the text. */
  lemma DigitsSearchAtEnd(t: string, name: string, allowX: bool)
    ensures DigitsSearchAnswer(t, |t|, None, name, allowX)
  {
    assert forall q: nat :: |t| <= q ==> NoDigitsMatchAt(t, q, name, allowX);
  }

  /** The answer from `p + 1` is the answer from `p` when nothing matches at `p`. */
  lemma DigitsSearchSkips(t: string, p: nat, r: Option<nat>, name: string, allowX: bool)
    requires NoDigitsMatchAt(t, p, name, allowX) && DigitsSearchAnswer(t, p + 1, r, name, allowX)
    ensures DigitsSearchAnswer(t, p, r, name, allowX)
  {
    if r.Some? {
      var q: nat, k: nat :| LeftmostDigitsMatch(t, p + 1, q, k, name, allowX) && r.value == DigitsValue(t[q..q + k]);
      assert LeftmostDigitsMatch(t, p, q, k, name, allowX);
    }
  }

  /** `SearchDigitsFirst` is `re.search` of its pattern from `p`. */
  lemma {:induction false} SearchDigitsFirstIsLeftmost(t: string, p: nat, name: string, allowX: bool)
    requires p <= |t|
    ensures DigitsSearchAnswer(t, p, SearchDigitsFirst(t, p, name, allowX), name, allowX)
    decreases |t| - p
  {
    if p == |t| {
      DigitsSearchAtEnd(t, name, allowX);
    } else {
      if CaptureAt(t, p, name, allowX).Some? {
        CaptureAnswers(t, p, name, allowX);
        assert SearchDigitsFirst(t, p, name, allowX) == CaptureAt(t, p, name, allowX);
      } else {
        NoCaptureNoMatch(t, p, name, allowX);
        SearchDigitsFirstIsLeftmost(t, p + 1, name, allowX);
        assert SearchDigitsFirst(t, p, name, allowX) == SearchDigitsFirst(t, p + 1, name, allowX);
        DigitsSearchSkips(t, p, SearchDigitsFirst(t, p + 1, name, allowX), name, allowX);
      }
    }
  }

  /** `\s*\d`: whitespace, then a digit, from `c`. */
  predicate SpacesThenDigit(t: string, c: nat)
    decreases |t| - c
  {
    c < |t| && (IsDigit(t[c]) || (IsSpace(t[c]) && SpacesThenDigit(t, c + 1)))
  }

  /** `x?\s*\d` from `a`. */
  predicate XThenDigit(t: string, a: nat) {
    (a < |t| && t[a] == 'x' && SpacesThenDigit(t, a + 1)) || SpacesThenDigit(t, a)
  }

  /** `\s*x?\s*\d` from `q`. */
  predicate SepDigit(t: string, q: nat)
    decreases |t| - q
  {
    XThenDigit(t, q) || (q < |t| && IsSpace(t[q]) && SepDigit(t, q + 1))
  }

  /** `name\s*x?\s*(\d+)` matches at `q` (the greedy `\d+` needs one digit only). */
  predicate NameMatch(t: string, q: nat, name: string) {
    OccursAt(t, name, q) && SepDigit(t, q + |name|)
  }

  lemma {:induction false} SpacesThenDigitRun(t: string, c: nat)
    requires c <= |t|
    ensures SpacesThenDigit(t, c) <==> c + SpaceRun(t, c) < |t| && IsDigit(t[c + SpaceRun(t, c)])
    decreases |t| - c
  {
    if c < |t| && IsSpace(t[c]) {
      SpacesThenDigitRun(t, c + 1);
    }
  }

  lemma {:induction false} SepDigitRun(t: string, q: nat)
    requires q <= |t|
    ensures SepDigit(t, q) <==> XThenDigit(t, q + SpaceRun(t, q))
    decreases |t| - q
  {
    if q < |t| && IsSpace(t[q]) {
      SepDigitRun(t, q + 1);
      SpacesThenDigitRun(t, q);
      SpacesThenDigitRun(t, q + SpaceRun(t, q));
    }
  }

  /** `x?` takes the `x` when there is one: a digit after spaces never starts with it. */
  lemma XThenDigitSkip(t: string, a: nat)
    requires a <= |t|
    ensures XThenDigit(t, a) <==> SpacesThenDigit(t, if a < |t| && t[a] == 'x' then a + 1 else a)
  {
    if a < |t| && t[a] == 'x' {
      assert !IsDigit(t[a]) && !IsSpace(t[a]);
    }
  }

  /** The separator matches exactly when a digit follows at `DigitStart`. */
  lemma SepDigitAtDigitStart(t: string, q: nat)
    requires q <= |t|
    ensures SepDigit(t, q) <==> DigitRun(t, DigitStart(t, q)) > 0
  {
    SepDigitRun(t, q);
    var a := q + SpaceRun(t, q);
    XThenDigitSkip(t, a);
    var b := if a < |t| && t[a] == 'x' then a + 1 else a;
    SpacesThenDigitRun(t, b);
    assert DigitStart(t, q) == b + SpaceRun(t, b);
  }

  /** The match `re.search` finds from `p`: the name and separator match at `q`, and at no start in `[p, q)`. */
  predicate LeftmostNameMatch(t: string, p: nat, q: nat, name: string) {
    p <= q && NameMatch(t, q, name) && forall q': nat :: p <= q' < q ==> !NameMatch(t, q', name)
  }

  /** The value of the greedy digit group that starts at `c`. */
  function GroupValue(t: string, c: nat): nat
    requires c <= |t|
  {
    DigitsValue(t[c..c + DigitRun(t, c)])
  }

  /**
   * `r` is what `re.search` answers from `p`: None when no start from `p`
   * on matches, otherwise the greedy digit group of the leftmost match.
   */
  ghost predicate NameSearchAnswer(t: string, p: nat, r: Option<nat>, name: string) {
    && (r.None? ==> forall q: nat :: p <= q ==> !NameMatch(t, q, name))
    && (r.Some? ==> exists q: nat :: LeftmostNameMatch(t, p, q, name) && r.value == GroupValue(t, DigitStart(t, q + |name|)))
  }

  /** The answer from `p + 1` is the answer from `p` when nothing matches at `p`. */
  lemma NameSearchSkips(t: string, p: nat, r: Option<nat>, name: string)
    requires !NameMatch(t, p, name) && NameSearchAnswer(t, p + 1, r, name)
    ensures NameSearchAnswer(t, p, r, name)
  {
    if r.Some? {
      var q: nat :| LeftmostNameMatch(t, p + 1, q, name) && r.value == GroupValue(t, DigitStart(t, q + |name|));
      assert LeftmostNameMatch(t, p, q, name);
    }
  }

  /** A capture at `p` is the answer from `p`. */
  lemma NameCaptureAnswers(t: string, p: nat, name: string)
    requires p <= |t| && NameCaptureAt(t, p, name).Some?
    ensures NameSearchAnswer(t, p, NameCaptureAt(t, p, name), name)
  {
    SepDigitAtDigitStart(t, p + |name|);
    assert LeftmostNameMatch(t, p, p, name)
      && NameCaptureAt(t, p, name).value == GroupValue(t, DigitStart(t, p + |name|));
  }

  /** Without a capture at `p`, the pattern does not match there. */
  lemma NoNameCaptureNoMatch(t: string, p: nat, name: string)
    requires p <= |t| && NameCaptureAt(t, p, name).None?
    ensures !NameMatch(t, p, name)
  {
    if p + |name| <= |t| {
      SepDigitAtDigitStart(t, p + |name|);
    }
  }

  /** Nothing matches from the end of the text. */
  lemma NameSearchAtEnd(t: string, name: string)
    ensures NameSearchAnswer(t, |t|, None, name)
  {
    assert !SepDigit(t, |t|);
  }

  /** `SearchNameFirst` is `re.search` of `name\s*x?\s*(\d+)` from `p`. */
  lemma {:induction false} SearchNameFirstIsLeftmost(t: string, p: nat, name: string)
    requires p <= |t|
    ensures NameSearchAnswer(t, p, SearchNameFirst(t, p, name), name)
    decreases |t| - p
  {
    if NameCaptureAt(t, p, name).Some? {
      NameCaptureAnswers(t, p, name);
      assert SearchNameFirst(t, p, name) == NameCaptureAt(t, p, name);
    } else if p == |t| {
      NameSearchAtEnd(t, name);
      assert SearchNameFirst(t, p, name).None?;
    } else {
      NoNameCaptureNoMatch(t, p, name);
      SearchNameFirstIsLeftmost(t, p + 1, name);
      assert SearchNameFirst(t, p, name) == SearchNameFirst(t, p + 1, name);
      NameSearchSkips(t, p, SearchNameFirst(t, p + 1, name), name);
    }
  }

  /** The three patterns, in the order `_extract_quantity_near` tries them. */
  function Pattern(i: nat, t: string, name: string): Option<nat>
    requires i < 3
  {
    if i == 0 then SearchDigitsFirst(t, 0, name, true)
    else if i == 1 then SearchNameFirst(t, 0, name)
    else SearchDigitsFirst(t, 0, name, false)
  }

  /** The first pattern's capture, else the second's, else the third's, else 1. */
  function QuantityNear(t: string, name: string): nat
  {
    match Pattern(0, t, name)
    case Some(v) => v
    case None =>
      match Pattern(1, t, name)
      case Some(v) => v
      case None => Pattern(2, t, name).GetOr(1)
  }

  /** A digit pattern's capture is the value of a run of digits in the text. */
  lemma DigitsCaptureIsDigits(t: string, name: string, allowX: bool)
    ensures SearchDigitsFirst(t, 0, name, allowX).Some? ==>
      exists p, k :: DigitsAt(t, p, k, SearchDigitsFirst(t, 0, name, allowX).value)
  {
    SearchDigitsFirstIsLeftmost(t, 0, name, allowX);
    var r := SearchDigitsFirst(t, 0, name, allowX);
    if r.Some? {
      var q: nat, k: nat :| LeftmostDigitsMatch(t, 0, q, k, name, allowX) && r.value == DigitsValue(t[q..q + k]);
      assert DigitsMatch(t, q, k, name, allowX);
      assert DigitsAt(t, q, k, r.value);
    }
  }

  /** The quantity is the default 1 or the value of digits in the text. */
  lemma QuantityFromText(t: string, name: string)
    ensures QuantityNear(t, name) == 1 || exists p, k :: DigitsAt(t, p, k, QuantityNear(t, name))
  {
    DigitsCaptureIsDigits(t, name, true);
    DigitsCaptureIsDigits(t, name, false);
  }

  /** `_extract_quantity_near`: the patterns in order, returning the first capture. */
  method ExtractQuantityNear(t: string, name: string) returns (q: nat)
    ensures q == QuantityNear(t, name)
  {
    for i := 0 to 3
      invariant forall j :: 0 <= j < i ==> Pattern(j, t, name).None?
    {
      var m := Pattern(i, t, name);
      if m.Some? {
        return m.value;
      }
    }
    return 1;
  }

  lemma NameAfterSpacesSep(t: string, q: nat, name: string)
    requires NameAfterSpaces(t, q, name)
    ensures SepName(t, q, name)
  {
  }

  /** A match of the third pattern at a start is a match of the first there. */
  lemma {:induction false} ThirdWithinFirst(t: string, p: nat, name: string)
    requires p <= |t|
    ensures SearchDigitsFirst(t, p, name, false).Some? ==> SearchDigitsFirst(t, p, name, true).Some?
    decreases |t| - p
  {
    if p < |t| {
      var k := DigitRun(t, p);
      var c3 := LongestCapture(t, p, k, name, false);
      if c3.Some? {
        NameAfterSpacesSep(t, p + c3.value, name);
        assert Rest(t, p + c3.value, name, true);
        assert LongestCapture(t, p, k, name, true).Some?;
      } else {
        if LongestCapture(t, p, k, name, true).None? {
          ThirdWithinFirst(t, p + 1, name);
        }
      }
    }
  }

  /** The third pattern never decides the quantity: whatever it matches, the first did. */
  lemma ThirdPatternIsRedundant(t: string, name: string)
    ensures QuantityNear(t, name) == (
      match SearchDigitsFirst(t, 0, name, true)
      case Some(v) => v
      case None => SearchNameFirst(t, 0, name).GetOr(1))
  {
    ThirdWithinFirst(t, 0, name);
  }

  /** A text with no digits at all gives the default quantity. */
  lemma NoDigitsNoQuantity(t: string, name: string)
    requires forall i :: 0 <= i < |t| ==> !IsDigit(t[i])
    ensures QuantityNear(t, name) == 1
  {
    QuantityFromText(t, name);
  }

  // ---------------------------------------------------------------- catalog match

  /** The catalog products whose lower-cased name occurs in the lower-cased text, in catalog order. */
  function Mentioned(catalog: seq<OrderService.Product>, lowered: string): (r: seq<OrderService.Product>)
    ensures |r| <= |catalog|
    ensures forall i :: 0 <= i < |r| ==> r[i] in catalog && Contains(lowered, Lower(r[i].name))
    ensures forall p :: p in catalog && Contains(lowered, Lower(p.name)) ==> p in r
    ensures Subsequence(r, catalog)
    decreases |catalog|
  {
    if catalog == [] then []
    else
      var init := catalog[..|catalog| - 1];
      var last := catalog[|catalog| - 1];
      assert catalog == init + [last];
      var rest := Mentioned(init, lowered);
      if Contains(lowered, Lower(last.name)) then
        var r := rest + [last];
        assert r[..|r| - 1] == rest;
        r
      else rest
  }

  /** Each mentioned product appears as many times as the catalog holds it; the others not at all. */
  lemma {:induction false} MentionedCounts(catalog: seq<OrderService.Product>, lowered: string)
    ensures forall p :: multiset(Mentioned(catalog, lowered))[p]
                     == if Contains(lowered, Lower(p.name)) then multiset(catalog)[p] else 0
    decreases |catalog|
  {
    if catalog != [] {
      var init := catalog[..|catalog| - 1];
      assert catalog == init + [catalog[|catalog| - 1]];
      MentionedCounts(init, lowered);
    }
  }

  /** The quantity found for each mentioned product. */
  function QuantitiesFor(products: seq<OrderService.Product>, lowered: string): (r: seq<nat>)
    ensures |r| == |products|
    ensures forall i :: 0 <= i < |r| ==> r[i] == QuantityNear(lowered, Lower(products[i].name))
  {
    seq(|products|, i requires 0 <= i < |products| => QuantityNear(lowered, Lower(products[i].name)))
  }

  /** The dict `extract_order_from_text` returns. */
  datatype Extracted = Extracted(products: seq<OrderService.Product>, quantities: seq<nat>, confidence: real)

  /**
   * `extract_order_from_text`: the mentioned products in catalog order and,
   * parallel to them, the quantity found near each name.
   */
  method ExtractOrderFromText(text: string, catalog: seq<OrderService.Product>) returns (e: Extracted)
    ensures e.products == Mentioned(catalog, Lower(text))
    ensures e.quantities == QuantitiesFor(e.products, Lower(text))
    ensures e.confidence == 0.7
  {
    var lowered := Lower(text);
    var products: seq<OrderService.Product> := [];
    var quantities: seq<nat> := [];
    var i := 0;
    while i < |catalog|
      invariant 0 <= i <= |catalog|
      invariant products == Mentioned(catalog[..i], lowered)
      invariant quantities == QuantitiesFor(products, lowered)
    {
      assert catalog[..i + 1][..i] == catalog[..i];
      var p := catalog[i];
      if Contains(lowered, Lower(p.name)) {
        var q := ExtractQuantityNear(lowered, Lower(p.name));
        products := products + [p];
        quantities := quantities + [q];
      }
      i := i + 1;
    }
    assert catalog[..i] == catalog;
    return Extracted(products, quantities, 0.7);
  }

  // ---------------------------------------------------------------- canned replies

  const DEFAULT_REPLY := "Estoy aquí para ayudarte. ¿Qué necesitas?"

  const REPLIES: map<string, string> := map[
    "saludo" := "¡Hola! 👋 Bienvenido. ¿En qué puedo ayudarte hoy?",
    "consulta" := "Claro, con gusto te ayudo. ¿Qué necesitas saber?",
    "queja" := "Lamento mucho los inconvenientes. Déjame ayudarte a resolver esto.",
    "despedida" := "¡Hasta pronto! Gracias por tu preferencia. 😊"]

  /** `generate_response`: the fixed reply of the four known intents, the default for any other. */
  function GenerateResponse(intent: string): (r: string)
    ensures intent in REPLIES ==> r == REPLIES[intent]
    ensures intent !in REPLIES ==> r == DEFAULT_REPLY
  {
    if intent in REPLIES then REPLIES[intent] else DEFAULT_REPLY
  }

  // ---------------------------------------------------------------- the model call

  /** A chat turn: its role and its content. */
  datatype Turn = Turn(role: string, content: string)

  /** The messages sent to the model: the system prompt, then at most the last five turns. */
  function PromptMessages(systemPrompt: string, context: seq<Turn>): (r: seq<Turn>)
    ensures |r| == 1 + (if |context| < 5 then |context| else 5)
    ensures r[0] == Turn("system", systemPrompt)
    ensures r[1..] == context[|context| - (|r| - 1)..]
  {
    var start := if |context| < 5 then 0 else |context| - 5;
    [Turn("system", systemPrompt)] + context[start..]
  }

  /** A six-key result dict in the shape the service builds itself. */
  function Record(intent: string, confidence: Json, response: string): (r: Json)
    ensures r.JObj? && Get(r.fields, "intent") == Some(JStr(intent)) && Get(r.fields, "confidence") == Some(confidence)
    ensures Get(r.fields, "entities") == Some(JObj([])) && Get(r.fields, "response") == Some(JStr(response))
    ensures Get(r.fields, "ready_to_create_order") == Some(JBool(false))
  {
    var f := [("intent", JStr(intent)), ("confidence", confidence), ("entities", JObj([])),
              ("response", JStr(response)), ("needs_more_info", JBool(false)), ("ready_to_create_order", JBool(false))];
    GetAt(f, 0, "intent");
    GetAt(f, 1, "confidence");
    GetAt(f, 2, "entities");
    GetAt(f, 3, "response");
    GetAt(f, 5, "ready_to_create_order");
    JObj(f)
  }

  /** The record built when the model's reply is not JSON. */
  function Fallback(reply: string): (r: Json)
    ensures Subscriptable(r) && !Truthy(GetOr(r.fields, "ready_to_create_order", JNull))
    ensures Get(r.fields, "response") == Some(JStr(reply)) && Get(r.fields, "intent") == Some(JStr("otro"))
  {
    Record("otro", JFloat(0.5, "0.5"), reply)
  }

  const ERROR_REPLY := "Disculpa, tuve un problema procesando tu mensaje. ¿Podrías repetirlo?"

  /** The record returned when anything in `process_message` raises. */
  const ERROR_RESULT := Record("error", JInt(0), ERROR_REPLY)

  /** The text handed to `json.loads`: the brace block when there is one, else the whole reply. */
  function JsonCandidate(reply: string): string {
    BraceBlock(reply).GetOr(reply)
  }

  /** The keys `process_message` reads with `result[...]` when saving the conversation. */
  predicate Subscriptable(result: Json) {
    result.JObj? && Get(result.fields, "response").Some? && Get(result.fields, "intent").Some?
      && Get(result.fields, "entities").Some? && Get(result.fields, "confidence").Some?
  }

  /** The result of `process_message` and whether it attempts to create the order. */
  datatype Processed = Processed(result: Json, autoCreate: bool)

  /**
   * The part of `process_message` after the model call: the parse with its
   * fallback, the saving that indexes the result, and the gate that starts
   * auto-creation only for a truthy `ready_to_create_order` together with
   * the intent `hacer_pedido`.
   */
  function ProcessReply(reply: Option<string>, decode: string -> Option<Json>): (r: Processed)
    ensures r.autoCreate ==> (r.result.JObj? && Truthy(GetOr(r.result.fields, "ready_to_create_order", JNull))
      && Get(r.result.fields, "intent") == Some(JStr("hacer_pedido")))
    ensures reply.None? ==> r == Processed(ERROR_RESULT, false)
    ensures reply.Some? && decode(JsonCandidate(reply.value)).None? ==> r == Processed(Fallback(reply.value), false)
    ensures reply.Some? && decode(JsonCandidate(reply.value)).Some? ==>
      (var v := decode(JsonCandidate(reply.value)).value;
       if Subscriptable(v) then r.result == v
         && (r.autoCreate <==> (Truthy(GetOr(v.fields, "ready_to_create_order", JNull))
                             && Get(v.fields, "intent") == Some(JStr("hacer_pedido"))))
       else r == Processed(ERROR_RESULT, false))
  {
    match reply
    case None => Processed(ERROR_RESULT, false)
    case Some(text) =>
      var result := match decode(JsonCandidate(text)) case Some(v) => v case None => Fallback(text);
      if !Subscriptable(result) then Processed(ERROR_RESULT, false)
      else
        var ready := GetOr(result.fields, "ready_to_create_order", JNull);
        Processed(result, Truthy(ready) && Get(result.fields, "intent") == Some(JStr("hacer_pedido")))
  }

  /** A reply that is not JSON never creates an order, and its text is what the customer sees. */
  lemma FallbackNeverCreates(reply: string, decode: string -> Option<Json>)
    requires decode(JsonCandidate(reply)).None?
    ensures !ProcessReply(Some(reply), decode).autoCreate
    ensures Get(ProcessReply(Some(reply), decode).result.fields, "response") == Some(JStr(reply))
    ensures Get(ProcessReply(Some(reply), decode).result.fields, "intent") == Some(JStr("otro"))
  {
  }

  // ---------------------------------------------------------------- auto-created order

  /** The arguments `_auto_create_order` passes to `create_order`. */
  datatype AutoOrder = AutoOrder(
    items: seq<(int, Json)>,
    orderType: Json,
    deliveryAddress: Json,
    customerName: Json,
    notes: string)

  const AUTO_NOTES := "Pedido creado automáticamente por IA"

  /** `Product.query.filter_by(business_id=…, name=…).first()`. */
  function FindProduct(catalog: seq<OrderService.Product>, businessId: int, name: Json): (r: Option<OrderService.Product>)
    ensures r.Some? ==> r.value in catalog && r.value.businessId == businessId && name == JStr(r.value.name)
    ensures r.None? ==> forall p :: p in catalog && p.businessId == businessId ==> name != JStr(p.name)
    decreases |catalog|
  {
    if catalog == [] then None
    else if catalog[0].businessId == businessId && name == JStr(catalog[0].name) then Some(catalog[0])
    else FindProduct(catalog[1..], businessId, name)
  }

  /** Each entry is a dict with a `name`, so `prod_data['name']` does not raise. */
  predicate NamedEntries(entries: seq<Json>) {
    forall i :: 0 <= i < |entries| ==> entries[i].JObj? && Get(entries[i].fields, "name").Some?
  }

  /** The item one named entry asks for: its product's id and its quantity, 1 when missing; None when no product has its name. */
  function ItemOf(e: Json, businessId: int, catalog: seq<OrderService.Product>): (r: Option<(int, Json)>)
    requires e.JObj? && Get(e.fields, "name").Some?
    ensures r.Some? <==> FindProduct(catalog, businessId, Get(e.fields, "name").value).Some?
    ensures r.Some? ==> r.value == (FindProduct(catalog, businessId, Get(e.fields, "name").value).value.id,
                                    GetOr(e.fields, "quantity", JInt(1)))
  {
    match FindProduct(catalog, businessId, Get(e.fields, "name").value)
    case None => None
    case Some(p) => Some((p.id, GetOr(e.fields, "quantity", JInt(1))))
  }

  /** The item of a named entry as a list of zero or one items. */
  function ItemList(e: Json, businessId: int, catalog: seq<OrderService.Product>): seq<(int, Json)>
    requires e.JObj? && Get(e.fields, "name").Some?
  {
    match ItemOf(e, businessId, catalog)
    case None => []
    case Some(it) => [it]
  }

  /** The reference list: the items of the entries, taken from the first entry on. */
  function Matched(entries: seq<Json>, businessId: int, catalog: seq<OrderService.Product>): (r: seq<(int, Json)>)
    requires NamedEntries(entries)
    ensures |r| <= |entries|
    decreases |entries|
  {
    if entries == [] then []
    else ItemList(entries[0], businessId, catalog) + Matched(entries[1..], businessId, catalog)
  }

  /** A named list with one more named entry is named. */
  lemma NamedSnoc(a: seq<Json>, e: Json)
    requires NamedEntries(a) && e.JObj? && Get(e.fields, "name").Some?
    ensures NamedEntries(a + [e])
    ensures a != [] ==> NamedEntries(a[1..]) && (a + [e])[1..] == a[1..] + [e]
  {
    assert forall i :: 0 <= i < |a| ==> (a + [e])[i] == a[i];
    assert (a + [e])[|a|] == e;
    if a != [] {
      assert forall i :: 0 <= i < |a[1..]| ==> a[1..][i] == a[i + 1];
      assert (a + [e])[1..] == a[1..] + [e];
    }
  }

  /** Matching one more entry appends its item. */
  lemma {:induction false} MatchedSnoc(a: seq<Json>, e: Json, businessId: int, catalog: seq<OrderService.Product>)
    requires NamedEntries(a) && e.JObj? && Get(e.fields, "name").Some?
    ensures NamedEntries(a + [e])
    ensures Matched(a + [e], businessId, catalog) == Matched(a, businessId, catalog) + ItemList(e, businessId, catalog)
    decreases |a|
  {
    NamedSnoc(a, e);
    if a == [] {
      assert a + [e] == [e];
      assert Matched([e], businessId, catalog) == ItemList(e, businessId, catalog) + Matched([], businessId, catalog);
    } else {
      MatchedSnoc(a[1..], e, businessId, catalog);
      var head := ItemList(a[0], businessId, catalog);
      var tail := Matched(a[1..], businessId, catalog);
      assert (a + [e])[0] == a[0];
      assert Matched(a + [e], businessId, catalog) == head + Matched(a[1..] + [e], businessId, catalog);
      assert Matched(a, businessId, catalog) == head + tail;
      assert head + (tail + ItemList(e, businessId, catalog)) == (head + tail) + ItemList(e, businessId, catalog);
    }
  }

  /**
   * The item list the loop builds: each entry must be a dict with a
   * `name` (otherwise the loop raises, which is None here); unmatched names
   * are skipped, every matching entry gives one item, in entry order.
   */
  function MatchItems(entries: seq<Json>, businessId: int, catalog: seq<OrderService.Product>): (r: Option<seq<(int, Json)>>)
    ensures r.Some? <==> NamedEntries(entries)
    ensures r.Some? ==> r.value == Matched(entries, businessId, catalog)
    decreases |entries|
  {
    if entries == [] then Some([])
    else
      var init := entries[..|entries| - 1];
      var e := entries[|entries| - 1];
      assert entries == init + [e];
      assert forall i :: 0 <= i < |init| ==> init[i] == entries[i];
      match MatchItems(init, businessId, catalog)
      case None => None
      case Some(items) =>
        if !e.JObj? || Get(e.fields, "name").None? then None
        else
          MatchedSnoc(init, e, businessId, catalog);
          Some(items + ItemList(e, businessId, catalog))
  }

  /** `ai_result.get('entities', {})`. */
  function EntitiesOf(aiResult: Json): Json
    requires aiResult.JObj?
  {
    GetOr(aiResult.fields, "entities", JObj([]))
  }

  /** `entities.get('products', [])`. */
  function ProductsOf(entities: Json): Json
    requires entities.JObj?
  {
    GetOr(entities.fields, "products", JArr([]))
  }

  /** The order `_auto_create_order` asks for, or None when it returns or raises before calling `create_order`. */
  function AutoOrderFor(businessId: int, aiResult: Json, catalog: seq<OrderService.Product>): (r: Option<AutoOrder>)
    requires aiResult.JObj?
    ensures r.Some? <==> (EntitiesOf(aiResult).JObj? && Truthy(ProductsOf(EntitiesOf(aiResult)))
      && ProductsOf(EntitiesOf(aiResult)).JArr? && NamedEntries(ProductsOf(EntitiesOf(aiResult)).items)
      && Matched(ProductsOf(EntitiesOf(aiResult)).items, businessId, catalog) != [])
    ensures r.Some? ==> r.value.items == Matched(ProductsOf(EntitiesOf(aiResult)).items, businessId, catalog)
    ensures r.Some? ==> r.value.orderType == GetOr(EntitiesOf(aiResult).fields, "delivery_type", JStr("delivery"))
    ensures r.Some? ==> (r.value.deliveryAddress == GetOr(EntitiesOf(aiResult).fields, "address", JNull)
      && r.value.customerName == GetOr(EntitiesOf(aiResult).fields, "customer_name", JNull)
      && r.value.notes == AUTO_NOTES)
  {
    var entities := EntitiesOf(aiResult);
    if !entities.JObj? then None
    else
      var productsData := ProductsOf(entities);
      if !Truthy(productsData) || !productsData.JArr? then None
      else match MatchItems(productsData.items, businessId, catalog)
        case None => None
        case Some(items) =>
          if items == [] then None
          else Some(AutoOrder(items, GetOr(entities.fields, "delivery_type", JStr("delivery")),
                              GetOr(entities.fields, "address", JNull), GetOr(entities.fields, "customer_name", JNull),
                              AUTO_NOTES))
  }

  /** Entries none of whose names is a product of the business give no items, so no order. */
  lemma {:induction false} NoMatchNoItems(entries: seq<Json>, businessId: int, catalog: seq<OrderService.Product>)
    requires NamedEntries(entries)
    requires forall i :: 0 <= i < |entries| ==> ItemOf(entries[i], businessId, catalog).None?
    ensures Matched(entries, businessId, catalog) == []
    decreases |entries|
  {
    if entries != [] {
      assert forall i :: 0 <= i < |entries[1..]| ==> entries[1..][i] == entries[i + 1];
      NoMatchNoItems(entries[1..], businessId, catalog);
    }
  }

  /**
   * `_auto_create_order` up to the call into `create_order`: the loop over
   * the entities' products, with the early returns.
   */
  method AutoCreateOrder(businessId: int, aiResult: Json, catalog: seq<OrderService.Product>) returns (request: Option<AutoOrder>)
    requires aiResult.JObj?
    ensures request == AutoOrderFor(businessId, aiResult, catalog)
  {
    var entities := EntitiesOf(aiResult);
    if !entities.JObj? {
      return None;
    }
    var productsData := ProductsOf(entities);
    if !Truthy(productsData) || !productsData.JArr? {
      return None;
    }
    var entries := productsData.items;
    var items: seq<(int, Json)> := [];
    var i := 0;
    while i < |entries|
      invariant 0 <= i <= |entries|
      invariant NamedEntries(entries[..i])
      invariant items == Matched(entries[..i], businessId, catalog)
    {
      var e := entries[i];
      if !e.JObj? || Get(e.fields, "name").None? {
        assert !NamedEntries(entries);
        return None;
      }
      assert entries[..i + 1] == entries[..i] + [e];
      MatchedSnoc(entries[..i], e, businessId, catalog);
      var product := FindProduct(catalog, businessId, Get(e.fields, "name").value);
      if product.Some? {
        items := items + [(product.value.id, GetOr(e.fields, "quantity", JInt(1)))];
      }
      i := i + 1;
    }
    assert entries[..i] == entries;
    if items == [] {
      return None;
    }
    return Some(AutoOrder(items, GetOr(entities.fields, "delivery_type", JStr("delivery")),
                          GetOr(entities.fields, "address", JNull), GetOr(entities.fields, "customer_name", JNull),
                          AUTO_NOTES));
  }

  /** Every item of `Matched` is the item of some entry. */
  lemma {:induction false} MatchedFromEntries(entries: seq<Json>, businessId: int, catalog: seq<OrderService.Product>)
    requires NamedEntries(entries)
    ensures forall it :: it in Matched(entries, businessId, catalog) ==>
      exists i :: 0 <= i < |entries| && ItemOf(entries[i], businessId, catalog) == Some(it)
    decreases |entries|
  {
    if entries != [] {
      var tail := entries[1..];
      assert forall i :: 0 <= i < |tail| ==> tail[i] == entries[i + 1];
      MatchedFromEntries(tail, businessId, catalog);
      var head := ItemList(entries[0], businessId, catalog);
      assert Matched(entries, businessId, catalog) == head + Matched(tail, businessId, catalog);
      forall it | it in Matched(entries, businessId, catalog)
        ensures exists i :: 0 <= i < |entries| && ItemOf(entries[i], businessId, catalog) == Some(it)
      {
        if it in head {
          assert ItemOf(entries[0], businessId, catalog) == Some(it);
        } else {
          var j :| 0 <= j < |tail| && ItemOf(tail[j], businessId, catalog) == Some(it);
          assert ItemOf(entries[j + 1], businessId, catalog) == Some(it);
        }
      }
    }
  }

  /** Every entry that names a product of the business contributes its item to `Matched`. */
  lemma {:induction false} EntriesInMatched(entries: seq<Json>, businessId: int, catalog: seq<OrderService.Product>)
    requires NamedEntries(entries)
    ensures forall i :: 0 <= i < |entries| && ItemOf(entries[i], businessId, catalog).Some? ==>
      ItemOf(entries[i], businessId, catalog).value in Matched(entries, businessId, catalog)
    decreases |entries|
  {
    if entries != [] {
      var tail := entries[1..];
      assert forall i :: 0 <= i < |tail| ==> tail[i] == entries[i + 1];
      EntriesInMatched(tail, businessId, catalog);
      assert Matched(entries, businessId, catalog)
        == ItemList(entries[0], businessId, catalog) + Matched(tail, businessId, catalog);
    }
  }

  /**
   * Every requested item is the item of some entry, that is a product of
   * the business with that entry's name and with its quantity or 1; and
   * every entry naming such a product gives its item.
   */
  lemma MatchedItemsFromCatalog(entries: seq<Json>, businessId: int, catalog: seq<OrderService.Product>)
    requires NamedEntries(entries)
    ensures forall it :: it in Matched(entries, businessId, catalog) ==>
      exists i :: 0 <= i < |entries| && ItemOf(entries[i], businessId, catalog) == Some(it)
    ensures forall i :: 0 <= i < |entries| && ItemOf(entries[i], businessId, catalog).Some? ==>
      ItemOf(entries[i], businessId, catalog).value in Matched(entries, businessId, catalog)
  {
    MatchedFromEntries(entries, businessId, catalog);
    EntriesInMatched(entries, businessId, catalog);
  }
}
