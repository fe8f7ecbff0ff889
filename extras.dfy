// The extras list of the food-details screen: the optional add-ons of a food
// item, each with its own selected quantity, and the pure list transforms the
// screen's handlers apply to it.
module Extras {

  /** One add-on of a food item. `value` is its unit price in integer cents;
      `quantity` is how many the user selected. */
  datatype Extra = Extra(id: int, name: string, value: int, quantity: int)

  /** The floor invariant of the extras list: no selected quantity is negative. */
  predicate NonNegative(s: seq<Extra>)
  {
    forall i :: 0 <= i < |s| ==> s[i].quantity >= 0
  }

  /** No extra of `s` carries the identifier `id`. */
  predicate Absent(s: seq<Extra>, id: int)
  {
    forall i :: 0 <= i < |s| ==> s[i].id != id
  }

  /** Position k of `s` holds an extra whose identifier no other extra carries. */
  predicate UniqueAt(s: seq<Extra>, k: int)
  {
    0 <= k < |s| && forall i :: 0 <= i < |s| && i != k ==> s[i].id != s[k].id
  }

  /** The extras as the screen stores them right after loading a food: every
      quantity set to 0, everything else kept. */
  function ResetQuantities(s: seq<Extra>): (r: seq<Extra>)
    ensures |r| == |s|
    ensures forall i :: 0 <= i < |s| ==>
              r[i].quantity == 0 && r[i] == s[i].(quantity := 0)
  {
    if s == [] then [] else [s[0].(quantity := 0)] + ResetQuantities(s[1..])
  }

  /** The new extras list after tapping "+" on extra `id`: every extra whose
      identifier matches gains one unit, with no upper bound. */
  function IncExtra(s: seq<Extra>, id: int): (r: seq<Extra>)
    ensures |r| == |s|
    ensures forall i :: 0 <= i < |s| ==>
              r[i].id == s[i].id && r[i].name == s[i].name && r[i].value == s[i].value &&
              r[i].quantity == (if s[i].id == id then s[i].quantity + 1 else s[i].quantity)
  {
    if s == [] then []
    else
      var e := s[0];
      [e.(quantity := if e.id == id then e.quantity + 1 else e.quantity)] + IncExtra(s[1..], id)
  }

  /** The new extras list after tapping "-" on extra `id`: a matching extra
      loses one unit only while its quantity is above 0. */
  function DecExtra(s: seq<Extra>, id: int): (r: seq<Extra>)
    ensures |r| == |s|
    ensures forall i :: 0 <= i < |s| ==>
              r[i].id == s[i].id && r[i].name == s[i].name && r[i].value == s[i].value &&
              r[i].quantity == (if s[i].id == id && s[i].quantity > 0 then s[i].quantity - 1 else s[i].quantity)
  {
    if s == [] then []
    else
      var e := s[0];
      var quantity := if e.id == id && e.quantity > 0 then e.quantity - 1 else e.quantity;
      [e.(quantity := quantity)] + DecExtra(s[1..], id)
  }

  /** The extras that go into an order: those with a positive quantity, in
      list order. */
  function OrderedExtras(s: seq<Extra>): (r: seq<Extra>)
    ensures |r| <= |s|
    ensures forall e :: e in r <==> e in s && e.quantity > 0
  {
    if s == [] then []
    else if s[0].quantity > 0 then [s[0]] + OrderedExtras(s[1..])
    else OrderedExtras(s[1..])
  }

  /** Positions of `s` with a positive quantity, in increasing order: the
      witness that OrderedExtras picks a subsequence. */
  function PositiveIndices(s: seq<Extra>): (idx: seq<nat>)
    ensures forall i :: 0 <= i < |idx| ==> idx[i] < |s|
  {
    if s == [] then []
    else
      var rest := Shifted(PositiveIndices(s[1..]));
      if s[0].quantity > 0 then [0] + rest else rest
  }

  function Shifted(xs: seq<nat>): (r: seq<nat>)
    ensures |r| == |xs| && forall i :: 0 <= i < |xs| ==> r[i] == xs[i] + 1
  {
    seq(|xs|, i requires 0 <= i < |xs| => xs[i] + 1)
  }

  /** `a` is the subsequence of `b` picked at the strictly increasing
      positions `idx`. */
  predicate SubsequenceAt(a: seq<Extra>, b: seq<Extra>, idx: seq<nat>)
  {
    |idx| == |a| &&
    (forall i :: 0 <= i < |idx| ==> idx[i] < |b| && a[i] == b[idx[i]]) &&
    (forall i, j :: 0 <= i < j < |idx| ==> idx[i] < idx[j])
  }

  // ---------------------------------------------------------------------------
  // Properties of the handlers' list transforms

  /** Tapping "+" on an identifier changes the list exactly when some extra
      carries that identifier. */
  lemma IncExtraUnchangedIff(s: seq<Extra>, id: int)
    ensures IncExtra(s, id) == s <==> Absent(s, id)
  {
  }

  /** Tapping "+" keeps every quantity non-negative. */
  lemma IncExtraKeepsNonNegative(s: seq<Extra>, id: int)
    requires NonNegative(s)
    ensures NonNegative(IncExtra(s, id))
    ensures forall i :: 0 <= i < |s| ==> IncExtra(s, id)[i].quantity >= 1 || s[i].id != id
  {
  }

  /** Tapping "-" never produces a negative quantity from a non-negative one. */
  lemma DecExtraKeepsNonNegative(s: seq<Extra>, id: int)
    requires NonNegative(s)
    ensures NonNegative(DecExtra(s, id))
  {
  }

  /** Tapping "-" on an identifier leaves the whole list as it was exactly when
      no extra with that identifier has a quantity above 0. */
  lemma DecExtraUnchangedIff(s: seq<Extra>, id: int)
    ensures DecExtra(s, id) == s <==>
            forall i :: 0 <= i < |s| && s[i].id == id ==> s[i].quantity <= 0
  {
  }

  /** "-" undoes "+" on a list whose quantities are non-negative. */
  lemma DecExtraUndoesIncExtra(s: seq<Extra>, id: int)
    requires NonNegative(s)
    ensures DecExtra(IncExtra(s, id), id) == s
  {
  }

  /** When extra k's identifier is unique, tapping "+" on it changes only extra k,
      and only its quantity. */
  lemma IncExtraOnlyTarget(s: seq<Extra>, k: int)
    requires UniqueAt(s, k)
    ensures IncExtra(s, s[k].id)[k] == s[k].(quantity := s[k].quantity + 1)
    ensures forall i :: 0 <= i < |s| && i != k ==> IncExtra(s, s[k].id)[i] == s[i]
  {
  }

  /** When extra k's identifier is unique, tapping "-" on it changes only extra k:
      one unit less while its quantity is positive, nothing otherwise. */
  lemma DecExtraOnlyTarget(s: seq<Extra>, k: int)
    requires UniqueAt(s, k)
    ensures DecExtra(s, s[k].id)[k] ==
            if s[k].quantity > 0 then s[k].(quantity := s[k].quantity - 1) else s[k]
    ensures forall i :: 0 <= i < |s| && i != k ==> DecExtra(s, s[k].id)[i] == s[i]
  {
  }

  /** Keeping the head of `b` extends a subsequence by one position. */
  lemma SubsequenceKeep(x: Extra, a: seq<Extra>, b: seq<Extra>, idx: seq<nat>)
    requires SubsequenceAt(a, b, idx)
    ensures SubsequenceAt([x] + a, [x] + b, [0] + Shifted(idx))
  {
  }

  /** Dropping the head of `b` keeps a subsequence, one position further on. */
  lemma SubsequenceSkip(x: Extra, a: seq<Extra>, b: seq<Extra>, idx: seq<nat>)
    requires SubsequenceAt(a, b, idx)
    ensures SubsequenceAt(a, [x] + b, Shifted(idx))
  {
  }

  /** OrderedExtras is the subsequence of `s` picked at PositiveIndices(s):
      the ordered extras keep their list order. */
  lemma {:induction false} OrderedExtrasIsSubsequence(s: seq<Extra>)
    ensures SubsequenceAt(OrderedExtras(s), s, PositiveIndices(s))
  {
    if s != [] {
      var tail := s[1..];
      OrderedExtrasIsSubsequence(tail);
      assert s == [s[0]] + tail;
      if s[0].quantity > 0 {
        SubsequenceKeep(s[0], OrderedExtras(tail), tail, PositiveIndices(tail));
      } else {
        SubsequenceSkip(s[0], OrderedExtras(tail), tail, PositiveIndices(tail));
      }
    }
  }

  /** PositiveIndices lists exactly the positions whose quantity is positive:
      together with OrderedExtrasIsSubsequence, the ordered extras are exactly
      the extras with a positive quantity. */
  lemma {:induction false} PositiveIndicesExact(s: seq<Extra>)
    ensures forall k :: 0 <= k < |s| ==> (k in PositiveIndices(s) <==> s[k].quantity > 0)
  {
    if s != [] {
      var tail := s[1..];
      PositiveIndicesExact(tail);
      var tidx := PositiveIndices(tail);
      var rest := Shifted(tidx);
      forall k | 1 <= k < |s|
        ensures k in rest <==> k - 1 in tidx
      {
        if k in rest {
          var j :| 0 <= j < |rest| && rest[j] == k;
          assert tidx[j] == k - 1;
        }
        if k - 1 in tidx {
          var j :| 0 <= j < |tidx| && tidx[j] == k - 1;
          assert rest[j] == k;
        }
      }
      assert 0 !in rest;
    }
  }
}
