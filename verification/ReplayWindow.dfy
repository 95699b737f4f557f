/** The anti-replay window: a 4096-bit bitmap in 64-bit words, bit 0 standing for the highest
    packet number seen. */
module ReplayWindow {
  import opened Wrappers
  import opened Bytes

  const WINDOW: nat := 4096
  const WORDS: nat := 64

  datatype ReplayError = TooOld | Duplicate

  // ---- Bits of one word ----

  /** `n` as a shift amount, from its binary digits. */
  function Amount(n: nat): bv64
  {
    if n == 0 then 0 else if n % 2 == 0 then Twice(Amount(n / 2)) else TwiceNext(Amount(n / 2))
  }

  function Twice(a: bv64): bv64 { a << 1 }

  function TwiceNext(a: bv64): bv64 { (a << 1) | 1 }

  function Next(a: bv64): bv64 { a + 1 }

  predicate Test(w: bv64, k: bv64)
    requires k < 64
  {
    (w >> k) & 1 == 1
  }

  lemma TwiceFacts(a: bv64)
    ensures TwiceNext(a) == Next(Twice(a))
    ensures Twice(Next(a)) == Next(TwiceNext(a))
    ensures Twice(0) == 0
  {
  }

  lemma {:induction false} AmountNext(n: nat)
    ensures Amount(n + 1) == Next(Amount(n))
  {
    hide Twice, TwiceNext, Next;
    TwiceFacts(Amount(n / 2));
    if n % 2 == 1 {
      AmountNext(n / 2);
      assert (n + 1) / 2 == n / 2 + 1;
    } else {
      assert (n + 1) / 2 == n / 2;
    }
  }

  /** A power of two up to 64 as a number and as a word. */
  predicate Power(size: nat, top: bv64)
  {
    || (size == 1 && top == 1) || (size == 2 && top == 2) || (size == 4 && top == 4) || (size == 8 && top == 8)
    || (size == 16 && top == 16) || (size == 32 && top == 32) || (size == 64 && top == 64)
  }

  lemma {:induction false} AmountBelow(n: nat, size: nat, top: bv64)
    requires n < size && Power(size, top)
    ensures Amount(n) < top
  {
    if size > 1 {
      assert Power(size / 2, top >> 1);
      AmountBelow(n / 2, size / 2, top >> 1);
    }
  }

  lemma AmountWord(k: nat)
    requires k < 64
    ensures Amount(k) < 64
    ensures k == 63 ==> Amount(k) == 63
    ensures k < 63 ==> Amount(k) < 63
  {
    AmountBelow(k, 64, 64);
    if k < 63 {
      AmountBelow(k + 1, 64, 64);
      AmountNext(k);
    } else {
      assert Amount(1) == 1;
      assert Amount(3) == 3;
      assert Amount(7) == 7;
      assert Amount(15) == 15;
      assert Amount(31) == 31;
    }
  }

  /** The word operations under names, so that proofs about positions need not look into them. */
  function Left(w: bv64, s: bv64): bv64
    requires s < 64
  {
    w << s
  }

  function Right(w: bv64, s: bv64): bv64
    requires s < 64
  {
    w >> s
  }

  function Or(a: bv64, b: bv64): bv64 { a | b }

  predicate Meets(a: bv64, b: bv64) { a & b != 0 }

  /** Bit `k` of a word. */
  predicate Bit(w: bv64, k: nat)
    requires k < 64
  {
    AmountWord(k);
    Test(w, Amount(k))
  }

  function ShiftLeft(w: bv64, n: nat): bv64
    requires n < 64
  {
    AmountWord(n);
    Left(w, Amount(n))
  }

  function ShiftRight(w: bv64, n: nat): bv64
    requires n < 64
  {
    AmountWord(n);
    Right(w, Amount(n))
  }

  lemma LeftLow(w: bv64, s: bv64)
    requires s < 16
    ensures Left(w, s + 1) == Left(Left(w, s), 1)
  {
  }

  lemma LeftMiddle(w: bv64, s: bv64)
    requires 16 <= s < 32
    ensures Left(w, s + 1) == Left(Left(w, s), 1)
  {
  }

  lemma LeftHigh(w: bv64, s: bv64)
    requires 32 <= s < 63
    ensures Left(w, s + 1) == Left(Left(w, s), 1)
  {
  }

  lemma RightLow(w: bv64, s: bv64)
    requires s < 16
    ensures Right(w, s + 1) == Right(Right(w, s), 1)
  {
  }

  lemma RightMiddle(w: bv64, s: bv64)
    requires 16 <= s < 32
    ensures Right(w, s + 1) == Right(Right(w, s), 1)
  {
  }

  lemma RightHigh(w: bv64, s: bv64)
    requires 32 <= s < 63
    ensures Right(w, s + 1) == Right(Right(w, s), 1)
  {
  }

  lemma LeftMore(w: bv64, n: nat)
    requires n < 63
    ensures ShiftLeft(w, n + 1) == ShiftLeft(ShiftLeft(w, n), 1)
  {
    hide Left;
    AmountWord(n);
    AmountNext(n);
    var s := Amount(n);
    if s < 16 { LeftLow(w, s); } else if s < 32 { LeftMiddle(w, s); } else { LeftHigh(w, s); }
    assert Amount(1) == 1;
  }

  lemma RightMore(w: bv64, n: nat)
    requires n < 63
    ensures ShiftRight(w, n + 1) == ShiftRight(ShiftRight(w, n), 1)
  {
    hide Right;
    AmountWord(n);
    AmountNext(n);
    var s := Amount(n);
    if s < 16 { RightLow(w, s); } else if s < 32 { RightMiddle(w, s); } else { RightHigh(w, s); }
    assert Amount(1) == 1;
  }

  lemma NoShift(w: bv64)
    ensures ShiftLeft(w, 0) == w && ShiftRight(w, 0) == w
  {
    assert w << 0 == w && w >> 0 == w;
  }

  lemma OneLeft(w: bv64, k: bv64)
    requires k < 63
    ensures Test(Left(w, 1), k + 1) == Test(w, k) && !Test(Left(w, 1), 0)
  {
  }

  lemma OneRight(w: bv64, k: bv64)
    requires k < 63
    ensures Test(Right(w, 1), k) == Test(w, k + 1) && !Test(Right(w, 1), 63)
  {
  }

  lemma BitLeft(w: bv64, k: nat)
    requires k < 64
    ensures Bit(ShiftLeft(w, 1), k) == (k > 0 && Bit(w, k - 1))
  {
    assert Amount(1) == 1 && Amount(0) == 0;
    if k > 0 {
      AmountWord(k - 1);
      AmountNext(k - 1);
    }
    OneLeft(w, if k > 0 then Amount(k - 1) else 0);
    hide Test, Left;
  }

  lemma BitRight(w: bv64, k: nat)
    requires k < 64
    ensures Bit(ShiftRight(w, 1), k) == (k < 63 && Bit(w, k + 1))
  {
    assert Amount(1) == 1;
    AmountWord(k);
    AmountNext(k);
    OneRight(w, if k < 63 then Amount(k) else 0);
    hide Test, Right;
  }

  /** Bit `k` of a word shifted left by `n`. */
  lemma {:induction false} LeftBit(w: bv64, n: nat, k: nat)
    requires n < 64 && k < 64
    ensures Bit(ShiftLeft(w, n), k) == (n <= k && Bit(w, k - n))
  {
    hide ShiftLeft, Bit;
    if n == 0 {
      NoShift(w);
    } else {
      LeftMore(w, n - 1);
      BitLeft(ShiftLeft(w, n - 1), k);
      if k > 0 { LeftBit(w, n - 1, k - 1); }
    }
  }

  /** Bit `k` of a word shifted right by `n`. */
  lemma {:induction false} RightBit(w: bv64, n: nat, k: nat)
    requires n < 64 && k < 64
    ensures Bit(ShiftRight(w, n), k) == (n + k < 64 && Bit(w, n + k))
  {
    hide ShiftRight, Bit;
    if n == 0 {
      NoShift(w);
    } else {
      RightMore(w, n - 1);
      BitRight(ShiftRight(w, n - 1), k);
      if k < 63 { RightBit(w, n - 1, k + 1); }
    }
  }

  lemma WordMask(w: bv64, m: bv64, k: bv64)
    requires m < 64 && k < 64
    ensures Test(Or(w, Left(1, m)), k) == (Test(w, k) || k == m)
  {
    hide Test, Or, Left;
    OrTest(w, Left(1, m), k);
    UnitTest(m, k);
  }

  lemma UnitTest(m: bv64, k: bv64)
    requires m < 64 && k < 64
    ensures Test(Left(1, m), k) == (k == m)
  {
  }

  lemma WordMeets(w: bv64, m: bv64)
    requires m < 64
    ensures Meets(w, Left(1, m)) <==> Test(w, m)
  {
  }

  lemma {:induction false} AmountInjective(j: nat, k: nat)
    requires j < 64 && k < 64 && Amount(j) == Amount(k)
    ensures j == k
  {
    if j > 0 { AmountNext(j - 1); AmountWord(j - 1); }
    if k > 0 { AmountNext(k - 1); AmountWord(k - 1); }
    if j > 0 && k > 0 { AmountInjective(j - 1, k - 1); }
  }

  /** The mask of a bit tests it, and setting the mask sets that bit only. */
  lemma MaskBit(w: bv64, m: nat, k: nat)
    requires m < 64 && k < 64
    ensures Bit(Or(w, ShiftLeft(1, m)), k) == (Bit(w, k) || k == m)
    ensures Meets(w, ShiftLeft(1, m)) <==> Bit(w, m)
  {
    hide Test, Left, Or, Meets;
    AmountWord(m);
    AmountWord(k);
    WordMask(w, Amount(m), Amount(k));
    WordMeets(w, Amount(m));
    if Amount(m) == Amount(k) { AmountInjective(m, k); }
  }

  lemma OrBit(a: bv64, b: bv64, k: nat)
    requires k < 64
    ensures Bit(Or(a, b), k) == (Bit(a, k) || Bit(b, k))
    ensures !Bit(0, k)
  {
    hide Test, Or;
    AmountWord(k);
    OrTest(a, b, Amount(k));
  }

  lemma OrTest(a: bv64, b: bv64, k: bv64)
    requires k < 64
    ensures Test(Or(a, b), k) == (Test(a, k) || Test(b, k)) && !Test(0, k)
  {
  }

  // ---- Bits of the whole window ----

  /** Bit `p` of the 4096. */
  predicate Held(bits: seq<bv64>, p: nat)
    requires |bits| == WORDS && p < WINDOW
  {
    Bit(bits[p / 64], p % 64)
  }

  /** One word of the window after a shift by `wordShift` words and `bitShift` bits. */
  function ShiftedWord(was: seq<bv64>, wordShift: nat, bitShift: nat, index: nat): bv64
    requires |was| == WORDS && index < WORDS && bitShift < 64
  {
    if index < wordShift then 0
    else if bitShift != 0 && index > wordShift then
      Or(ShiftLeft(was[index - wordShift], bitShift), ShiftRight(was[index - wordShift - 1], 64 - bitShift))
    else ShiftLeft(was[index - wordShift], bitShift)
  }

  /** A bit of the shifted word is the bit `wordShift * 64 + bitShift` places below it. */
  lemma ShiftedBit(was: seq<bv64>, wordShift: nat, bitShift: nat, index: nat, k: nat)
    requires |was| == WORDS && index < WORDS && bitShift < 64 && k < 64
    ensures Bit(ShiftedWord(was, wordShift, bitShift, index), k) ==
      if index < wordShift then false
      else if k >= bitShift then Bit(was[index - wordShift], k - bitShift)
      else index > wordShift && Bit(was[index - wordShift - 1], 64 - bitShift + k)
  {
    hide Bit, ShiftLeft, ShiftRight, Or;
    if index < wordShift {
      OrBit(0, 0, k);
    } else {
      LeftBit(was[index - wordShift], bitShift, k);
      if bitShift != 0 && index > wordShift {
        var carried := ShiftRight(was[index - wordShift - 1], 64 - bitShift);
        RightBit(was[index - wordShift - 1], 64 - bitShift, k);
        OrBit(ShiftLeft(was[index - wordShift], bitShift), carried, k);
      }
    }
  }

  /** The word-by-word shift is the shift of the 4096-bit window. */
  lemma WindowShifted(was: seq<bv64>, now: seq<bv64>, shift: nat, p: nat)
    requires |was| == |now| == WORDS && shift < WINDOW && p < WINDOW
    requires forall index: nat :: index < WORDS ==> now[index] == ShiftedWord(was, shift / 64, shift % 64, index)
    ensures Held(now, p) == (shift <= p && Held(was, p - shift))
  {
    hide Bit, ShiftedWord;
    var index, k := p / 64, p % 64;
    ShiftedBit(was, shift / 64, shift % 64, index, k);
    Borrow(p, shift);
  }

  /** Subtracting a shift from a position, in words and bits. */
  lemma Borrow(p: nat, shift: nat)
    ensures p >= shift && p % 64 >= shift % 64 ==>
      && (p - shift) / 64 == p / 64 - shift / 64 && (p - shift) % 64 == p % 64 - shift % 64
    ensures p >= shift && p % 64 < shift % 64 ==>
      && (p - shift) / 64 == p / 64 - shift / 64 - 1 && (p - shift) % 64 == 64 - shift % 64 + p % 64
    ensures shift <= p <==> if p % 64 >= shift % 64 then shift / 64 <= p / 64 else shift / 64 < p / 64
  {
  }

  /** The window answers for exactly the accepted numbers less than 4096 behind the highest. */
  ghost predicate Represents(bits: seq<bv64>, highest: Option<u64>, accepted: set<nat>)
    requires |bits| == WORDS
  {
    && (highest.None? ==> accepted == {} && bits[0] == 0)
    && (highest.Some? ==> highest.value in accepted && forall n :: n in accepted ==> n <= highest.value)
    && forall p: nat :: p < WINDOW ==>
          (Held(bits, p) <==> highest.Some? && p <= highest.value && highest.value - p in accepted)
  }

  class ReplayWindow {
    var highest: Option<u64>
    var bits: array<bv64>
    ghost var accepted: set<nat>

    ghost predicate Valid()
      reads this, bits
    {
      bits.Length == WORDS && Represents(bits[..], highest, accepted)
    }

    constructor ()
      ensures Valid() && fresh(bits) && accepted == {} && highest == None
    {
      highest := None;
      bits := new bv64[WORDS](i => 0);
      accepted := {};
      new;
      forall p: nat | p < WINDOW ensures !Held(bits[..], p) { OrBit(0, 0, p % 64); }
    }

    /** `check_and_mark`: a number is refused as too old exactly when it is 4096 or more behind
        the highest, as a duplicate exactly when it was accepted before, and accepted otherwise. */
    method CheckAndMark(value: u64) returns (r: Result<bool, ReplayError>)
      requires Valid()
      modifies this, bits
      ensures Valid() && bits == old(bits)
      ensures r == Verdict(old(highest), old(accepted), value)
      ensures r.Ok? ==> accepted == old(accepted) + {value}
      ensures r.Err? ==> accepted == old(accepted) && highest == old(highest)
      ensures old(highest.Some?) && r.Ok? ==> highest == Some(Max(old(highest).value, value))
      ensures old(highest.None?) ==> highest == Some(value)
    {
      hide Represents, Bit;
      RepresentsFacts(bits[..], highest, accepted);
      if highest.None? {
        FirstMark(bits[..], accepted, value);
        ghost var was := bits[..];
        bits[0] := 1;
        assert bits[..] == was[0 := 1];
        highest, accepted := Some(value), accepted + {value};
        return Ok(true);
      }
      if value > highest.value {
        Advance(value);
        return Ok(true);
      }
      if highest.value - value >= WINDOW { return Err(TooOld); }
      r := MarkOlder(value);
    }

    /** A number inside the window, at or behind the highest. */
    method MarkOlder(value: u64) returns (r: Result<bool, ReplayError>)
      requires Valid() && highest.Some? && value <= highest.value < value + WINDOW
      modifies this`accepted, bits
      ensures Valid()
      ensures r == if value in old(accepted) then Err(Duplicate) else Ok(true)
      ensures accepted == if value in old(accepted) then old(accepted) else old(accepted) + {value}
    {
      hide Represents, Bit, Meets, Or, ShiftLeft;
      var distance: nat := highest.value - value;
      var word, mask := distance / 64, ShiftLeft(1, distance % 64);
      ghost var was := bits[..];
      Marked(was, highest.value, accepted, value);
      if Meets(bits[word], mask) { return Err(Duplicate); }
      bits[word] := Or(bits[word], mask);
      assert bits[..] == was[word := Or(was[word], mask)];
      accepted := accepted + {value};
      r := Ok(true);
    }

    /** The window moves up to a new highest number. */
    method Advance(value: u64)
      requires Valid() && highest.Some? && value > highest.value
      modifies this`highest, this`accepted, bits
      ensures Valid() && accepted == old(accepted) + {value} && highest == Some(value)
    {
      hide Represents, Held, Bit, Or, Behind;
      var shift: nat := value - highest.value;
      ghost var was := bits[..];
      if shift >= WINDOW {
        Clear();
        Forgotten(was, bits[..], highest.value, accepted, value);
      } else {
        ShiftOlderBits(shift);
        Moved(was, bits[..], highest.value, accepted, value);
      }
      ghost var moved := bits[..];
      bits[0] := Or(bits[0], 1);
      LowestMarked(moved, value, accepted);
      assert bits[..] == moved[0 := Or(moved[0], 1)];
      highest, accepted := Some(value), accepted + {value};
    }

    method Clear()
      requires bits.Length == WORDS
      modifies bits
      ensures forall p: nat :: p < WINDOW ==> !Held(bits[..], p)
    {
      hide Bit;
      for i := 0 to WORDS
        invariant forall j :: 0 <= j < i ==> bits[j] == 0
      {
        bits[i] := 0;
      }
      forall p: nat | p < WINDOW ensures !Held(bits[..], p) { OrBit(0, 0, p % 64); }
    }

    /** `shift_older_bits`. */
    method ShiftOlderBits(shift: nat)
      requires bits.Length == WORDS && shift < WINDOW
      modifies bits
      ensures forall p: nat :: p < WINDOW ==> (Held(bits[..], p) <==> shift <= p && Held(old(bits[..]), p - shift))
    {
      hide Held, Bit, Or, ShiftLeft, ShiftRight;
      var wordShift, bitShift := shift / 64, shift % 64;
      var before := bits[..];
      for index := WORDS downto 0
        invariant forall j: nat :: index <= j < WORDS ==> bits[j] == ShiftedWord(before, wordShift, bitShift, j)
      {
        var value: bv64 := 0;
        if index >= wordShift {
          value := ShiftLeft(before[index - wordShift], bitShift);
          if bitShift != 0 && index > wordShift {
            value := Or(value, ShiftRight(before[index - wordShift - 1], 64 - bitShift));
          }
        }
        bits[index] := value;
      }
      forall p: nat | p < WINDOW ensures Held(bits[..], p) <==> shift <= p && Held(before, p - shift) {
        WindowShifted(before, bits[..], shift, p);
      }
    }
  }

  lemma RepresentsFacts(bits: seq<bv64>, highest: Option<u64>, accepted: set<nat>)
    requires |bits| == WORDS && Represents(bits, highest, accepted)
    ensures highest.None? ==> accepted == {} && bits[0] == 0
    ensures accepted != {} ==> highest.Some?
    ensures highest.Some? ==> highest.value in accepted && forall n :: n in accepted ==> n <= highest.value
  {
  }

  /** The exact outcome in terms of the numbers accepted so far. */
  ghost function Verdict(highest: Option<u64>, accepted: set<nat>, value: nat): Result<bool, ReplayError>
  {
    if highest.Some? && value + WINDOW <= highest.value then Err(TooOld)
    else if value in accepted then Err(Duplicate)
    else Ok(true)
  }

  /** Over a whole sequence of packet numbers no number is accepted twice, and every refusal has
      its reason: accepted before, or 4096 or more behind a number accepted before. */
  method CheckAll(values: seq<u64>) returns (answers: seq<Result<bool, ReplayError>>)
    ensures |answers| == |values|
    ensures forall i :: 0 <= i < |values| ==> RightAnswer(values, answers, i)
    ensures forall i, j :: 0 <= i < j < |values| && values[i] == values[j] && answers[i].Ok? ==> answers[j].Err?
  {
    var window := new ReplayWindow();
    answers := [];
    for k := 0 to |values|
      invariant window.Valid() && fresh(window) && fresh(window.bits)
      invariant |answers| == k && Logged(values, answers, window.accepted)
    {
      RepresentsFacts(window.bits[..], window.highest, window.accepted);
      hide Represents, Logged;
      ghost var highest, before := window.highest, window.accepted;
      var answer := window.CheckAndMark(values[k]);
      LoggedNext(values, answers, highest, before, answer);
      answers := answers + [answer];
    }
    AnswersFollow(values, answers);
  }

  /** The answer at `i` in terms of the answers before it. */
  ghost predicate RightAnswer(values: seq<u64>, answers: seq<Result<bool, ReplayError>>, i: nat)
    requires i < |values| && i < |answers|
  {
    answers[i] ==
      if FarBehind(values, answers, i) then Err(TooOld) else if AcceptedBefore(values, answers, i) then Err(Duplicate)
          else Ok(true)
  }

  ghost predicate Logged(values: seq<u64>, answers: seq<Result<bool, ReplayError>>, accepted: set<nat>)
    requires |answers| <= |values|
  {
    && (forall n: nat :: n in accepted <==> exists i :: 0 <= i < |answers| && values[i] == n && answers[i].Ok?)
    && (forall i :: 0 <= i < |answers| ==> RightAnswer(values, answers, i))
  }

  lemma LoggedNext(values: seq<u64>, answers: seq<Result<bool, ReplayError>>, highest: Option<u64>,
          accepted: set<nat>, answer: Result<bool, ReplayError>)
    requires |answers| < |values| && Logged(values, answers, accepted)
    requires answer == Verdict(highest, accepted, values[|answers|])
    requires accepted != {} ==> highest.Some?
    requires highest.Some? ==> highest.value in accepted && forall n :: n in accepted ==> n <= highest.value
    ensures Logged(values, answers + [answer], if answer.Ok? then accepted + {values[|answers|]} else accepted)
  {
    var k, next := |answers|, answers + [answer];
    forall i | 0 <= i < k ensures RightAnswer(values, next, i) {
      assert RightAnswer(values, answers, i);
      assert FarBehind(values, next, i) <==> FarBehind(values, answers, i);
      assert AcceptedBefore(values, next, i) <==> AcceptedBefore(values, answers, i);
    }
    assert AcceptedBefore(values, next, k) <==> values[k] in accepted by {
      assert forall i :: 0 <= i < k ==> next[i] == answers[i];
    }
    assert forall i :: 0 <= i < k ==> next[i] == answers[i];
    if highest.Some? && values[k] + WINDOW <= highest.value {
      var i :| 0 <= i < k && values[i] == highest.value && answers[i].Ok?;
      assert next[i].Ok? && FarBehind(values, next, k);
    }
    if FarBehind(values, next, k) {
      var j :| 0 <= j < k && values[j] >= values[k] + WINDOW && next[j].Ok?;
      assert answers[j].Ok? && values[j] in accepted;
    }
  }

  lemma AnswersFollow(values: seq<u64>, answers: seq<Result<bool, ReplayError>>)
    requires |answers| == |values| && forall i :: 0 <= i < |answers| ==> RightAnswer(values, answers, i)
    ensures forall i, j :: 0 <= i < j < |values| && values[i] == values[j] && answers[i].Ok? ==> answers[j].Err?
  {
    forall i, j | 0 <= i < j < |values| && values[i] == values[j] && answers[i].Ok? ensures answers[j].Err? {
      assert AcceptedBefore(values, answers, j);
      assert RightAnswer(values, answers, j);
    }
  }

  ghost predicate AcceptedBefore(values: seq<u64>, answers: seq<Result<bool, ReplayError>>, i: nat)
    requires i < |values| && i <= |answers|
  {
    exists j :: 0 <= j < i && values[j] == values[i] && answers[j].Ok?
  }

  /** A number 4096 or more above this one was accepted earlier. */
  ghost predicate FarBehind(values: seq<u64>, answers: seq<Result<bool, ReplayError>>, i: nat)
    requires i < |values| && i <= |answers|
  {
    exists j :: 0 <= j < i && values[j] >= values[i] + WINDOW && answers[j].Ok?
  }

  /** Setting the mask of position `d` sets that position and no other. */
  lemma HeldSet(bits: seq<bv64>, d: nat, p: nat)
    requires |bits| == WORDS && d < WINDOW && p < WINDOW
    ensures Meets(bits[d / 64], ShiftLeft(1, d % 64)) <==> Held(bits, d)
    ensures Held(bits[d / 64 := Or(bits[d / 64], ShiftLeft(1, d % 64))], p) <==> Held(bits, p) || p == d
  {
    hide Bit, Or, ShiftLeft, Meets;
    MaskBit(bits[d / 64], d % 64, p % 64);
  }

  lemma UnitMask()
    ensures ShiftLeft(1, 0) == 1
  {
    NoShift(1);
  }

  lemma FirstMark(bits: seq<bv64>, accepted: set<nat>, value: u64)
    requires |bits| == WORDS && Represents(bits, None, accepted)
    ensures Represents(bits[0 := 1], Some(value), accepted + {value})
  {
    UnitMask();
    OrZero();
    hide Bit, Or, ShiftLeft, Held;
    var marked := bits[0 := 1];
    forall p: nat | p < WINDOW ensures Held(marked, p) <==> p == 0 { HeldSet(bits, 0, p); }
  }

  lemma OrZero()
    ensures Or(0, 1) == 1
  {
  }

  lemma Marked(bits: seq<bv64>, highest: u64, accepted: set<nat>, value: u64)
    requires |bits| == WORDS && Represents(bits, Some(highest), accepted) && value <= highest < value + WINDOW
    ensures var distance := highest - value;
      && (Meets(bits[distance / 64], ShiftLeft(1, distance % 64)) <==> value in accepted)
      && Represents(bits[distance / 64 := Or(bits[distance / 64], ShiftLeft(1, distance % 64))], Some(highest),
            accepted + {value})
  {
    hide Bit, Or, ShiftLeft, Held, Meets;
    var d := highest - value;
    HeldSet(bits, d, d);
    var marked := bits[d / 64 := Or(bits[d / 64], ShiftLeft(1, d % 64))];
    forall p: nat | p < WINDOW ensures Held(marked, p) <==> Held(bits, p) || p == d { HeldSet(bits, d, p); }
  }

  lemma Forgotten(was: seq<bv64>, bits: seq<bv64>, highest: u64, accepted: set<nat>, value: u64)
    requires |was| == |bits| == WORDS && Represents(was, Some(highest), accepted) && value >= highest + WINDOW
    requires forall p: nat :: p < WINDOW ==> !Held(bits, p)
    ensures Behind(bits, value, accepted)
  {
  }

  lemma Moved(was: seq<bv64>, bits: seq<bv64>, highest: u64, accepted: set<nat>, value: u64)
    requires |was| == |bits| == WORDS && Represents(was, Some(highest), accepted) && highest < value < highest + WINDOW
    requires forall p: nat :: p < WINDOW ==>
      (Held(bits, p) <==> value - highest <= p && Held(was, p - (value - highest)))
    ensures Behind(bits, value, accepted)
  {
  }

  /** The bits stand for the numbers at and behind `value`, which is new. */
  ghost predicate Behind(bits: seq<bv64>, value: u64, accepted: set<nat>)
    requires |bits| == WORDS
  {
    && (forall n :: n in accepted ==> n < value)
    && forall p: nat :: p < WINDOW ==> (Held(bits, p) <==> p <= value && value - p in accepted)
  }

  lemma LowestMarked(bits: seq<bv64>, value: u64, accepted: set<nat>)
    requires |bits| == WORDS && Behind(bits, value, accepted)
    ensures Represents(bits[0 := Or(bits[0], 1)], Some(value), accepted + {value})
  {
    UnitMask();
    hide Bit, Or, ShiftLeft, Held;
    var marked := bits[0 := Or(bits[0], 1)];
    forall p: nat | p < WINDOW ensures Held(marked, p) <==> Held(bits, p) || p == 0 { HeldSet(bits, 0, p); }
  }
}
