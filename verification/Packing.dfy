/** Greedy packing of consecutive items into groups that fit, with a last resort for single items. */
module Packing {
  import opened Wrappers

  /** A group of whole items, or one item that had to be reduced to fit. */
  datatype Piece = Whole(first: nat, last: nat) | Forced(item: nat)

  datatype Refusal = Hopeless(item: nat) | Interrupted

  datatype Packed = Packed(pieces: Result<seq<Piece>, Refusal>, tick: nat)

  /** Whether the items in `[i, k)` fit together, and whether one item fits once it is reduced. */
  datatype Rules = Rules(fits: (nat, nat) -> bool, forcible: nat -> bool, cancelled: nat -> bool)

  function Prepend(head: seq<Piece>, packed: Packed): Packed {
    match packed.pieces
    case Success(pieces) => Packed(Success(head + pieces), packed.tick)
    case Failure(_) => packed
  }

  function Open(i: nat, k: nat): seq<Piece> {
    if i < k then [Whole(i, k)] else []
  }

  /**
    The packing loop: the open group began at item `i`, items before `k` are placed. Each item costs
    one look at the cancellation signal.
   */
  function PackFrom(rules: Rules, n: nat, i: nat, k: nat, tick: nat): Packed
    requires i <= k <= n
    decreases n - k, 1
  {
    if k == n then Packed(Success(Open(i, k)), tick)
    else if rules.cancelled(tick) then Packed(Failure(Interrupted), tick + 1)
    else if rules.fits(i, k + 1) then PackFrom(rules, n, i, k + 1, tick + 1)
    else Prepend(Open(i, k), PlaceFrom(rules, n, i, k, tick + 1))
  }

  /** Item `k` begins after a closed group: in a group of its own or, as a last resort, reduced. */
  function PlaceFrom(rules: Rules, n: nat, i: nat, k: nat, tick: nat): Packed
    requires i <= k < n
    decreases n - k, 0
  {
    if i < k && rules.fits(k, k + 1) then PackFrom(rules, n, k, k + 1, tick)
    else if rules.forcible(k) then Prepend([Forced(k)], PackFrom(rules, n, k + 1, k + 1, tick))
    else Packed(Failure(Hopeless(k)), tick)
  }

  lemma PrependNothing(packed: Packed)
    ensures Prepend([], packed) == packed
  {
    if packed.pieces.Success? {
      assert [] + packed.pieces.value == packed.pieces.value;
    }
  }

  lemma PrependTwice(a: seq<Piece>, b: seq<Piece>, packed: Packed)
    ensures Prepend(a, Prepend(b, packed)) == Prepend(a + b, packed)
  {
    if packed.pieces.Success? {
      assert a + (b + packed.pieces.value) == (a + b) + packed.pieces.value;
    }
  }

  /** The three outcomes of closing the open group before item `k`. */
  lemma PlaceOutcome(rules: Rules, n: nat, i: nat, k: nat, tick: nat)
    requires i <= k < n
    ensures var placed := Prepend(Open(i, k), PlaceFrom(rules, n, i, k, tick));
      if i < k && rules.fits(k, k + 1) then placed == Prepend(Open(i, k), PackFrom(rules, n, k, k + 1, tick))
      else if rules.forcible(k) then
        placed == Prepend(Open(i, k) + [Forced(k)], PackFrom(rules, n, k + 1, k + 1, tick))
      else placed == Packed(Failure(Hopeless(k)), tick)
  {
    PrependTwice(Open(i, k), [Forced(k)], PackFrom(rules, n, k + 1, k + 1, tick));
  }

  /** Consecutive pieces cover the items in `[i, n)` without gap or overlap. */
  predicate Covers(pieces: seq<Piece>, i: nat, n: nat)
    decreases |pieces|
  {
    if pieces == [] then i == n
    else match pieces[0]
      case Whole(first, last) => first == i < last <= n && Covers(pieces[1..], last, n)
      case Forced(k) => k == i < n && Covers(pieces[1..], k + 1, n)
  }

  /** A group fits; an item is reduced only if it can be and does not fit as it is. */
  predicate Admissible(rules: Rules, piece: Piece) {
    match piece
    case Whole(first, last) => rules.fits(first, last)
    case Forced(k) => rules.forcible(k) && !rules.fits(k, k + 1)
  }

  ghost predicate AllAdmissible(rules: Rules, pieces: seq<Piece>) {
    forall piece | piece in pieces :: Admissible(rules, piece)
  }

  lemma {:induction false} CoversPrepend(head: seq<Piece>, i: nat, m: nat, rest: seq<Piece>, n: nat)
    requires Covers(head, i, m) && Covers(rest, m, n) && m <= n
    ensures Covers(head + rest, i, n)
    decreases |head|
  {
    if head == [] {
      assert head + rest == rest;
    } else {
      assert (head + rest)[1..] == head[1..] + rest;
      CoversPrepend(head[1..], match head[0] case Whole(_, last) => last case Forced(k) => k + 1, m, rest, n);
    }
  }

  lemma {:induction false} CoversCount(pieces: seq<Piece>, i: nat, n: nat)
    requires Covers(pieces, i, n)
    ensures i <= n && |pieces| <= n - i
    ensures i < n ==> pieces != []
    decreases |pieces|
  {
    if pieces != [] {
      CoversCount(pieces[1..], match pieces[0] case Whole(_, last) => last case Forced(k) => k + 1, n);
    }
  }

  predicate Within(piece: Piece, i: nat, n: nat) {
    match piece
    case Whole(first, last) => i <= first < last <= n
    case Forced(k) => i <= k < n
  }

  lemma {:induction false} CoversWithin(pieces: seq<Piece>, i: nat, n: nat, piece: Piece)
    requires Covers(pieces, i, n) && piece in pieces
    ensures Within(piece, i, n)
    decreases |pieces|
  {
    CoversCount(pieces, i, n);
    var next := match pieces[0] case Whole(_, last) => last case Forced(k) => k + 1;
    if piece != pieces[0] {
      CoversWithin(pieces[1..], next, n, piece);
    }
  }

  /** On success the pieces cover the remaining items in order and every one is admissible. */
  lemma {:induction false} PackIsSound(rules: Rules, n: nat, i: nat, k: nat, tick: nat)
    requires i <= k <= n && (i < k ==> rules.fits(i, k))
    ensures var pieces := PackFrom(rules, n, i, k, tick).pieces;
      pieces.Success? ==> Covers(pieces.value, i, n) && AllAdmissible(rules, pieces.value)
    decreases n - k
  {
    if k < n && !rules.cancelled(tick) {
      if rules.fits(i, k + 1) {
        PackIsSound(rules, n, i, k + 1, tick + 1);
      } else if i < k && rules.fits(k, k + 1) {
        PackIsSound(rules, n, k, k + 1, tick + 1);
        var rest := PackFrom(rules, n, k, k + 1, tick + 1).pieces;
        if rest.Success? {
          CoversPrepend(Open(i, k), i, k, rest.value, n);
        }
      } else if rules.forcible(k) {
        PackIsSound(rules, n, k + 1, k + 1, tick + 1);
        var rest := PackFrom(rules, n, k + 1, k + 1, tick + 1).pieces;
        if rest.Success? {
          CoversPrepend([Forced(k)], k, k + 1, rest.value, n);
          CoversPrepend(Open(i, k), i, k, [Forced(k)] + rest.value, n);
        }
      }
    }
  }

  /** A part of a fitting group fits. */
  ghost predicate Monotone(rules: Rules, n: nat) {
    forall i: nat, i': nat, k': nat, k: nat |
      i <= i' < k' <= k <= n && rules.fits(i, k) :: rules.fits(i', k')
  }

  /** An item that fits neither as it is nor reduced. */
  predicate NeverFits(rules: Rules, item: nat) {
    !rules.fits(item, item + 1) && !rules.forcible(item)
  }

  /** Absent cancellation, packing fails exactly when some item never fits. */
  lemma {:induction false} PackFailsExactlyWhen(rules: Rules, n: nat, i: nat, k: nat, tick: nat)
    requires i <= k <= n && Monotone(rules, n)
    requires forall t :: !rules.cancelled(t)
    ensures PackFrom(rules, n, i, k, tick).pieces.Failure? <==> exists u | k <= u < n :: NeverFits(rules, u)
    decreases n - k
  {
    if k < n {
      if rules.fits(i, k + 1) {
        assert rules.fits(k, k + 1);
        PackFailsExactlyWhen(rules, n, i, k + 1, tick + 1);
      } else if i < k && rules.fits(k, k + 1) {
        PackFailsExactlyWhen(rules, n, k, k + 1, tick + 1);
      } else if rules.forcible(k) {
        PackFailsExactlyWhen(rules, n, k + 1, k + 1, tick + 1);
      } else {
        assert NeverFits(rules, k);
      }
    }
  }

  /** A packing gives up at the first item that never fits; otherwise it looks at the signal once for each. */
  lemma {:induction false} PackStops(rules: Rules, n: nat, i: nat, k: nat, tick: nat)
    requires i <= k <= n && Monotone(rules, n) && (i < k ==> rules.fits(i, k))
    ensures var packed := PackFrom(rules, n, i, k, tick);
      match packed.pieces
      case Success(_) => packed.tick == tick + n - k && forall t | tick <= t < packed.tick :: !rules.cancelled(t)
      case Failure(Interrupted) => tick < packed.tick && rules.cancelled(packed.tick - 1)
      case Failure(Hopeless(item)) =>
        k <= item < n && NeverFits(rules, item) && forall u | k <= u < item :: !NeverFits(rules, u)
    decreases n - k
  {
    if k < n && !rules.cancelled(tick) {
      if rules.fits(i, k + 1) {
        assert rules.fits(k, k + 1);
        PackStops(rules, n, i, k + 1, tick + 1);
      } else if i < k && rules.fits(k, k + 1) {
        PackStops(rules, n, k, k + 1, tick + 1);
      } else if rules.forcible(k) {
        PackStops(rules, n, k + 1, k + 1, tick + 1);
      }
    }
  }

  ghost predicate Unforced(pieces: seq<Piece>) {
    forall piece | piece in pieces :: piece.Whole?
  }

  /**
    When no item is reduced, greedy packing uses the fewest groups: any division of the items from
    `j` on into fitting groups, with `j` no later than the open group, has at least as many.
   */
  lemma {:induction false} GreedyIsMinimal(rules: Rules, n: nat, i: nat, k: nat, tick: nat, j: nat, other: seq<Piece>)
    requires j <= i <= k <= n && Monotone(rules, n)
    requires PackFrom(rules, n, i, k, tick).pieces.Success?
    requires Unforced(PackFrom(rules, n, i, k, tick).pieces.value)
    requires Covers(other, j, n) && Unforced(other) && AllAdmissible(rules, other)
    ensures |PackFrom(rules, n, i, k, tick).pieces.value| <= |other|
    decreases n - k
  {
    if k < n {
      if rules.fits(i, k + 1) {
        GreedyIsMinimal(rules, n, i, k + 1, tick + 1, j, other);
      } else {
        var all := PackFrom(rules, n, i, k, tick).pieces.value;
        assert other[0] in other;
        if i < k && rules.fits(k, k + 1) {
          var rest := PackFrom(rules, n, k, k + 1, tick + 1).pieces.value;
          assert all == [Whole(i, k)] + rest;
          CoversCount(other[1..], other[0].last, n);
          GreedyIsMinimal(rules, n, k, k + 1, tick + 1, other[0].last, other[1..]);
        } else {
          ForcedIsUsed(rules, n, i, k, tick);
        }
      }
    }
  }

  lemma ForcedIsUsed(rules: Rules, n: nat, i: nat, k: nat, tick: nat)
    requires i <= k < n && PackFrom(rules, n, i, k, tick).pieces.Success?
    requires !rules.fits(i, k + 1) && !(i < k && rules.fits(k, k + 1))
    ensures Forced(k) in PackFrom(rules, n, i, k, tick).pieces.value
  {
    var rest := PackFrom(rules, n, k + 1, k + 1, tick + 1).pieces.value;
    assert PackFrom(rules, n, i, k, tick).pieces.value == Open(i, k) + ([Forced(k)] + rest);
  }

  /** Without a last resort no piece is forced. */
  lemma {:induction false} NothingForced(rules: Rules, n: nat, i: nat, k: nat, tick: nat)
    requires i <= k <= n
    requires forall item :: !rules.forcible(item)
    ensures var pieces := PackFrom(rules, n, i, k, tick).pieces;
      pieces.Success? ==> Unforced(pieces.value)
    decreases n - k
  {
    if k < n && !rules.cancelled(tick) {
      if rules.fits(i, k + 1) {
        NothingForced(rules, n, i, k + 1, tick + 1);
      } else if i < k && rules.fits(k, k + 1) {
        NothingForced(rules, n, k, k + 1, tick + 1);
      }
    }
  }
}
