/** SEARCH ROM with the context's bits as they are written (firmware/ti/include/onewire/onewire.h:50-61):
    which devices repeated calls find then. */
module SearchShifts {
  import opened OneWire
  import opened SearchEnumeration

  /** No bit above 31. */
  predicate InWord(id: Rom) {
    forall j | WORD <= j < ROM_BITS :: !id[j]
  }

  /** A shift by 32 or more gives 0, as it does on an ARM, where the shift counts the bits out of the
      register. */
  const SHIFTED_OUT: ShiftMode := Written(seq(WORD, _ => seq(WORD, _ => false)))

  // --- Repeated calls ---

  ghost function After(mode: ShiftMode, codes: set<Rom>, context: Context, calls: nat): Context
    decreases calls
  {
    if calls == 0 then context else Call(mode, codes, After(mode, codes, context, calls - 1)).0
  }

  /** The call after `calls` others finds the device. */
  ghost predicate FindsAt(mode: ShiftMode, codes: set<Rom>, context: Context, r: Rom, calls: nat) {
    var (next, found) := Call(mode, codes, After(mode, codes, context, calls));
    found && next.id == r
  }

  ghost predicate Finds(mode: ShiftMode, codes: set<Rom>, context: Context, r: Rom) {
    exists calls: nat :: FindsAt(mode, codes, context, r, calls)
  }

  // --- As it is meant, the calls find the enumeration ---

  lemma {:induction false} AfterIsSearch(codes: set<Rom>, context: Context, calls: nat)
    ensures After(Meant, codes, context, calls) == AfterCalls(codes, context, calls)
    decreases calls
  {
    if calls > 0 {
      var last := AfterCalls(codes, context, calls - 1);
      AfterIsSearch(codes, context, calls - 1);
      AfterCallsLast(codes, context, calls - 1);
      NextIsSearch(codes, last);
    }
  }

  lemma NextIsSearch(codes: set<Rom>, context: Context)
    ensures Call(Meant, codes, context).0 == Search(codes, context).0
  {
    CallIsSearch(codes, context);
  }

  lemma {:induction false} AfterCallsLast(codes: set<Rom>, context: Context, calls: nat)
    ensures AfterCalls(codes, context, calls + 1) == Search(codes, AfterCalls(codes, context, calls)).0
    decreases calls
  {
    if calls > 0 { AfterCallsLast(codes, Search(codes, context).0, calls - 1); }
  }

  lemma {:induction false} UnderwayAfter(codes: set<Rom>, garbage: Rom, calls: nat)
    requires codes != {}
    ensures Underway(codes, AfterCalls(codes, Context(garbage, 0, false), calls + 1))
    decreases calls
  {
    var context := Context(garbage, 0, false);
    AfterCallsLast(codes, context, calls);
    if calls == 0 {
      FirstUnderway(codes, garbage);
    } else {
      UnderwayAfter(codes, garbage, calls - 1);
      if !AfterCalls(codes, context, calls).done { CallMakesProgress(codes, AfterCalls(codes, context, calls)); }
    }
  }

  lemma MeantFindsReach(codes: set<Rom>, garbage: Rom, r: Rom)
    requires codes != {}
    ensures Finds(Meant, codes, Context(garbage, 0, false), r) <==> r in Enumeration(codes, garbage)
  {
    var context, ids := Context(garbage, 0, false), Enumeration(codes, garbage);
    SearchEnumerates(codes, garbage);
    if r in ids {
      var k: nat :| k < |ids| && ids[k] == r;
      AfterIsSearch(codes, context, k);
      AfterCallsLast(codes, context, k);
      CallIsSearch(codes, AfterCalls(codes, context, k));
      CallFinds(codes, garbage, k);
      if k > 0 { CallFinds(codes, garbage, k - 1); }
      assert FindsAt(Meant, codes, context, r, k);
    }
    if Finds(Meant, codes, context, r) {
      var k: nat :| FindsAt(Meant, codes, context, r, k);
      AfterIsSearch(codes, context, k);
      AfterCallsLast(codes, context, k);
      CallIsSearch(codes, AfterCalls(codes, context, k));
      UnderwayAfter(codes, garbage, k);
    }
  }

  // --- As it is written, bits above 31 are never set ---

  lemma DirectedStaysInWord(mode: ShiftMode, turn: nat, id: Rom, index: nat, value: bool, complement: bool)
    requires mode.Written? && index < ROM_BITS && InWord(id)
    ensures InWord(Directed(mode, turn, id, index, value, complement))
  {
  }

  lemma {:induction false} RoundsStayInWord(mode: ShiftMode, turn: nat, before: Outcome, index: nat)
    requires mode.Written? && index <= ROM_BITS && InWord(before.id)
    ensures InWord(Rounds(mode, turn, before, index).id)
    decreases ROM_BITS - index
  {
    if index < ROM_BITS && before.answered {
      var value, complement := Slot(before.active, index, true), Slot(before.active, index, false);
      DirectedStaysInWord(mode, turn, before.id, index, value, complement);
      RoundsStayInWord(mode, turn, Round(mode, turn, before, index), index + 1);
    }
  }

  lemma {:induction false} AfterStaysInWord(mode: ShiftMode, codes: set<Rom>, context: Context, calls: nat)
    requires mode.Written? && InWord(context.id)
    ensures InWord(After(mode, codes, context, calls).id)
    decreases calls
  {
    if calls > 0 {
      AfterStaysInWord(mode, codes, context, calls - 1);
      var last := After(mode, codes, context, calls - 1);
      RoundsStayInWord(mode, last.fork, Outcome(last.id, 0, codes, true), 0);
    }
  }

  /** Whatever a wide shift gives: a device with a bit above 31 is never found from a context that starts
      without such bits. */
  lemma HighCodeNeverFound(mode: ShiftMode, codes: set<Rom>, context: Context, r: Rom)
    requires mode.Written? && InWord(context.id) && !InWord(r)
    ensures !Finds(mode, codes, context, r)
  {
    forall calls: nat
      ensures !FindsAt(mode, codes, context, r, calls)
    {
      AfterStaysInWord(mode, codes, context, calls + 1);
    }
  }

  // --- When the one is shifted out, the code that is found never has bits above 31 ---

  lemma ShiftedOutGet(id: Rom, index: nat)
    requires index < ROM_BITS
    ensures GetBit(SHIFTED_OUT, id, index) == (index < WORD && id[index])
  {
    if index < WORD && id[index] { assert MaskBit(SHIFTED_OUT, index, index); }
  }

  lemma ShiftedOutSet(id: Rom, index: nat, value: bool)
    requires index < ROM_BITS
    ensures value && index >= WORD ==> SetBit(SHIFTED_OUT, id, index, value) == id
    ensures !value ==> InWord(SetBit(SHIFTED_OUT, id, index, value))
    ensures forall j: nat | j < WORD :: SetBit(SHIFTED_OUT, id, index, value)[j] == if j == index then value else id[j]
  {
  }

  /** A search that answers without a fork to turn at gets past index 32, and there the high half of the
      code is cleared: by the bit that is set to 0, or else nobody answers at index 33. */
  lemma {:induction false} FreshEndsInWord(before: Outcome, index: nat)
    requires index <= WORD && before.answered && Rounds(SHIFTED_OUT, 0, before, index).answered
    ensures InWord(Rounds(SHIFTED_OUT, 0, before, index).id)
    decreases WORD - index
  {
    var after := Round(SHIFTED_OUT, 0, before, index);
    if index < WORD {
      FreshEndsInWord(after, index + 1);
    } else {
      AtTheWord(before);
      if InWord(after.id) { RoundsStayInWord(SHIFTED_OUT, 0, after, WORD + 1); }
    }
  }

  lemma AtTheWord(before: Outcome)
    requires before.answered
    ensures var after := Round(SHIFTED_OUT, 0, before, WORD);
      InWord(after.id) || !Rounds(SHIFTED_OUT, 0, before, WORD).answered
  {
    var value, complement := Slot(before.active, WORD, true), Slot(before.active, WORD, false);
    var after := Round(SHIFTED_OUT, 0, before, WORD);
    if !(value && complement) {
      ShiftedOutSet(before.id, WORD, value);
      ShiftedOutGet(after.id, WORD);
      if value {
        assert after.active == {};
        NobodyLeft(after.active, WORD + 1);
        var end := Round(SHIFTED_OUT, 0, after, WORD + 1);
        assert !end.answered;
        assert Rounds(SHIFTED_OUT, 0, after, WORD + 1) == Rounds(SHIFTED_OUT, 0, end, WORD + 2) == end;
      }
    }
  }

  /** Nor has a context, once there is a fork to turn at. */
  ghost predicate Settled(context: Context) {
    context.fork == 0 || InWord(context.id)
  }

  lemma CallSettles(codes: set<Rom>, context: Context)
    requires Settled(context)
    ensures var (next, found) := Call(SHIFTED_OUT, codes, context); Settled(next) && (found ==> InWord(next.id))
  {
    if !context.done {
      var before := Outcome(context.id, 0, codes, true);
      var end := Rounds(SHIFTED_OUT, context.fork, before, 0);
      if context.fork == 0 {
        if end.answered { FreshEndsInWord(before, 0); }
      } else {
        RoundsStayInWord(SHIFTED_OUT, context.fork, before, 0);
      }
    }
  }

  lemma {:induction false} AfterSettles(codes: set<Rom>, context: Context, calls: nat)
    requires Settled(context)
    ensures Settled(After(SHIFTED_OUT, codes, context, calls))
    decreases calls
  {
    if calls > 0 {
      AfterSettles(codes, context, calls - 1);
      CallSettles(codes, After(SHIFTED_OUT, codes, context, calls - 1));
    }
  }

  /** A device with a bit above 31 is never found, whatever was in the context's memory. */
  lemma HighCodeLost(codes: set<Rom>, garbage: Rom, r: Rom)
    requires !InWord(r)
    ensures !Finds(SHIFTED_OUT, codes, Context(garbage, 0, false), r)
  {
    var context := Context(garbage, 0, false);
    forall calls: nat
      ensures !FindsAt(SHIFTED_OUT, codes, context, r, calls)
    {
      AfterSettles(codes, context, calls);
      CallSettles(codes, After(SHIFTED_OUT, codes, context, calls));
    }
  }

  // --- Without such devices the search is the one that is meant ---

  /** The two searches side by side: the same below bit 32, and nothing above once that was passed. */
  ghost predicate Alike(written: Outcome, meant: Outcome, index: nat) {
    && written.fork == meant.fork && written.active == meant.active && written.answered == meant.answered
    && (forall j | 0 <= j < WORD :: written.id[j] == meant.id[j])
    && (forall j | WORD <= j < ROM_BITS && j < index :: !meant.id[j])
    && (index > WORD ==> InWord(written.id))
  }

  lemma RoundAlike(turn: nat, written: Outcome, meant: Outcome, index: nat)
    requires index < ROM_BITS && Alike(written, meant, index) && written.answered
    requires written.active != {} && forall r | r in written.active :: InWord(r)
    ensures var w, m := Round(SHIFTED_OUT, turn, written, index), Round(Meant, turn, meant, index);
      && Alike(w, m, index + 1) && w.answered
      && w.active != {} && forall r | r in w.active :: InWord(r)
  {
    var value, complement := Slot(written.active, index, true), Slot(written.active, index, false);
    NobodyLeft(written.active, index);
    var way := if value || complement then value else index == turn;
    MeantDirection(turn, meant.id, index, value, complement);
    ShiftedOutSet(written.id, index, way);
    ShiftedOutGet(Directed(SHIFTED_OUT, turn, written.id, index, value, complement), index);
    var w := Round(SHIFTED_OUT, turn, written, index);
    var r :| r in written.active;
    if index >= WORD {
      assert !r[index] && !value && complement;
      assert r in w.active;
    } else {
      SomeoneFollows(written.active, index, GetBit(SHIFTED_OUT, w.id, index));
    }
  }

  lemma SomeoneFollows(active: set<Rom>, index: nat, bit: bool)
    requires index < ROM_BITS && !Slot(active, index, !bit)
    ensures Agreeing(active, index, bit) != {}
  {
    var r :| r in active && r[index] == bit;
    assert r in Agreeing(active, index, bit);
  }

  lemma {:induction false} RoundsAlike(turn: nat, written: Outcome, meant: Outcome, index: nat)
    requires index <= ROM_BITS && Alike(written, meant, index) && written.answered
    requires written.active != {} && forall r | r in written.active :: InWord(r)
    ensures Rounds(SHIFTED_OUT, turn, written, index) == Rounds(Meant, turn, meant, index)
    decreases ROM_BITS - index
  {
    if index < ROM_BITS {
      RoundAlike(turn, written, meant, index);
      RoundsAlike(turn, Round(SHIFTED_OUT, turn, written, index), Round(Meant, turn, meant, index), index + 1);
    } else {
      assert written.id == meant.id;
    }
  }

  lemma {:induction false} AfterAlike(codes: set<Rom>, context: Context, calls: nat)
    requires codes != {} && forall r | r in codes :: InWord(r)
    ensures After(SHIFTED_OUT, codes, context, calls) == After(Meant, codes, context, calls)
    ensures var last := After(Meant, codes, context, calls); Call(SHIFTED_OUT, codes, last) == Call(Meant, codes, last)
    decreases calls
  {
    if calls > 0 { AfterAlike(codes, context, calls - 1); }
    var last := After(Meant, codes, context, calls);
    var before := Outcome(last.id, 0, codes, true);
    RoundsAlike(last.fork, before, before, 0);
  }

  /** With shifts that give 0, repeated calls find every device if and only if all codes agree on bit 0 and
      none has a bit above 31. */
  lemma WrittenFindsAll(codes: set<Rom>, garbage: Rom)
    requires codes != {}
    ensures (forall r | r in codes :: Finds(SHIFTED_OUT, codes, Context(garbage, 0, false), r)) <==>
            (forall a, b | a in codes && b in codes :: a[0] == b[0]) && (forall r | r in codes :: InWord(r))
  {
    var context := Context(garbage, 0, false);
    if forall r | r in codes :: InWord(r) {
      CompleteIffBit0Agrees(codes, garbage);
      forall r
        ensures Finds(SHIFTED_OUT, codes, context, r) <==> r in Enumeration(codes, garbage)
      {
        MeantFindsReach(codes, garbage, r);
        forall calls: nat
          ensures FindsAt(SHIFTED_OUT, codes, context, r, calls) <==> FindsAt(Meant, codes, context, r, calls)
        {
          AfterAlike(codes, context, calls);
        }
      }
    } else {
      var r :| r in codes && !InWord(r);
      HighCodeLost(codes, garbage, r);
    }
  }
}
