/** RegisterDecodingInjectedFault: a fault in the decode stage that makes one
    instruction read from, or write to, the wrong architectural register.
    Its descriptor is `Src:<slot>:<register>` or `Dst:<slot>:<register>`. */
module RegDec {
  import opened Outcomes
  import opened CxxString
  import opened FaultQueues

  /** Which register-index array of the instruction the fault corrupts. */
  datatype RegKind = Src | Dst

  /** The fields `parseRegDec` sets, still as the substrings it hands to the
      setters. */
  datatype RegDecDescriptor = RegDecDescriptor(srcOrDst: RegKind, regToChange: string, changeToReg: string)

  function KindPrefix(k: RegKind): string
  {
    match k
    case Src => "Src"
    case Dst => "Dst"
  }

  /** The descriptor grammar `("Src" | "Dst") ":" <slot> ":" <register>`. */
  function FormatRegDec(d: RegDecDescriptor): string
  {
    KindPrefix(d.srcOrDst) + ":" + d.regToChange + ":" + d.changeToReg
  }

  /** Does the token start with one of the two recognised prefixes? */
  predicate KnownPrefix(s: string)
  {
    |s| >= 3 && (s[..3] == "Src" || s[..3] == "Dst")
  }

  /** The common tail of both branches of `parseRegDec`: drop four characters,
      then cut the rest at its first colon. When there is no colon,
      `find_first_of` yields `npos`, `substr(0, npos)` is the whole rest and
      `npos + 1` wraps to 0, so both fields are the whole rest. */
  function SplitOperands(kind: RegKind, s: string): (r: Result<RegDecDescriptor>)
    requires |s| < NPOS
    ensures r.Failure? <==> |s| < 4
    ensures r.Failure? ==> r.error == OutOfRange
    ensures r.Success? ==> r.value.srcOrDst == kind && ':' !in r.value.regToChange
    ensures r.Success? && ':' in s[4..] ==> s[4..] == r.value.regToChange + ":" + r.value.changeToReg
    ensures r.Success? && ':' !in s[4..] ==> r.value.regToChange == s[4..] && r.value.changeToReg == s[4..]
  {
    match Substr(s, 4, NPOS)
    case Failure(e) => Failure(e)
    case Success(rest) =>
      assert rest == s[4..];
      var pos := FindFirstOf(rest, ':');
      match (Substr(rest, 0, pos), Substr(rest, SizeAdd(pos, 1), NPOS))
      case (Failure(e), _) => Failure(e)
      case (_, Failure(e)) => Failure(e)
      case (Success(a), Success(b)) =>
        assert pos != NPOS ==> a == rest[..pos] && b == rest[pos + 1..] && rest == a + ":" + b;
        assert pos == NPOS ==> a == rest && b == rest;
        Success(RegDecDescriptor(kind, a, b))
  }

  /** `parseRegDec`: only characters 0-2 select the kind, character 3 is skipped
      unread, and the rest is split at its first colon. A token with neither
      prefix is fatal (`assert(0)`); a recognised prefix on a token of exactly
      three characters makes `substr(4)` throw. */
  function ParseRegDec(s: string): (r: Result<RegDecDescriptor>)
    requires |s| < NPOS
    ensures r.Failure? <==> !(KnownPrefix(s) && |s| >= 4)
    ensures r.Failure? ==> r.error == (if KnownPrefix(s) then OutOfRange else UnknownPrefix)
    ensures r.Success? ==> r.value.srcOrDst == (if s[..3] == "Src" then Src else Dst)
    ensures r.Success? ==> ':' !in r.value.regToChange
    ensures r.Success? && ':' in s[4..] ==> s[4..] == r.value.regToChange + ":" + r.value.changeToReg
    ensures r.Success? && ':' !in s[4..] ==> r.value.regToChange == s[4..] && r.value.changeToReg == s[4..]
  {
    if HeadEquals(s, 3, "Src") then SplitOperands(Src, s)
    else if HeadEquals(s, 3, "Dst") then SplitOperands(Dst, s)
    else Failure(UnknownPrefix)
  }

  /** Cutting at the first occurrence of a separator determines both parts. */
  lemma {:induction false} FirstSplitUnique(a: string, b: string, a': string, b': string, c: char)
    requires c !in a && c !in a'
    requires a + [c] + b == a' + [c] + b'
    ensures a == a' && b == b'
  {
    var s := a + [c] + b;
    assert forall i :: 0 <= i < |a| ==> s[i] == a[i] != c;
    assert forall i :: 0 <= i < |a'| ==> s[i] == a'[i] != c;
    assert s[|a|] == c && s[|a'|] == c;
    assert a == s[..|a|] == a';
    assert b == s[|a| + 1..] == b';
  }

  /** The parse depends on the first three characters and on what follows the
      fourth, and on nothing else. */
  lemma ParseDeterminedByHeadAndRest(s: string, t: string)
    requires 4 <= |s| < NPOS && |t| == |s|
    requires t[..3] == s[..3] && t[4..] == s[4..]
    ensures ParseRegDec(t) == ParseRegDec(s)
  {
    var r, q := ParseRegDec(s), ParseRegDec(t);
    if r.Success? {
      assert q.Success? && q.value.srcOrDst == r.value.srcOrDst;
      if ':' in s[4..] {
        FirstSplitUnique(q.value.regToChange, q.value.changeToReg, r.value.regToChange, r.value.changeToReg, ':');
      }
    }
  }

  /** Round trip: parsing a formatted descriptor gives it back, whatever the
      fourth character is, as long as the slot text has no colon; colons in
      the register text stay there. */
  lemma ParseFormatted(d: RegDecDescriptor, sep: char)
    requires ':' !in d.regToChange
    requires 5 + |d.regToChange| + |d.changeToReg| < NPOS
    ensures ParseRegDec(KindPrefix(d.srcOrDst) + [sep] + d.regToChange + ":" + d.changeToReg) == Success(d)
  {
    var s := KindPrefix(d.srcOrDst) + [sep] + d.regToChange + ":" + d.changeToReg;
    var rest := d.regToChange + ":" + d.changeToReg;
    assert s[..3] == KindPrefix(d.srcOrDst);
    assert s[4..] == rest;
    assert ':' in rest by { assert rest[|d.regToChange|] == ':'; }
    var r := ParseRegDec(s);
    assert r.Success? && r.value.srcOrDst == d.srcOrDst;
    FirstSplitUnique(r.value.regToChange, r.value.changeToReg, d.regToChange, d.changeToReg, ':');
  }

  /** Inverse direction: the descriptor grammar round-trips through the parser. */
  lemma ParseFormat(d: RegDecDescriptor)
    requires ':' !in d.regToChange
    requires 5 + |d.regToChange| + |d.changeToReg| < NPOS
    ensures ParseRegDec(FormatRegDec(d)) == Success(d)
  {
    ParseFormatted(d, ':');
  }

  /** A token whose head, fourth character and rest agree with a descriptor
      is that descriptor's formatted form. */
  lemma FormatOfParts(s: string, d: RegDecDescriptor)
    requires |s| >= 4 && s[3] == ':'
    requires s[..3] == KindPrefix(d.srcOrDst)
    requires s[4..] == d.regToChange + ":" + d.changeToReg
    ensures FormatRegDec(d) == s
  {
    assert s == s[..3] + [s[3]] + s[4..];
  }

  /** The other direction of the round trip: a token with a known prefix, a
      colon as its fourth character and a colon after that is exactly the
      formatted form of what it parses to. */
  lemma FormatAfterParse(s: string)
    requires 4 <= |s| < NPOS && KnownPrefix(s) && s[3] == ':' && ':' in s[4..]
    ensures ParseRegDec(s).Success? && FormatRegDec(ParseRegDec(s).value) == s
  {
    var r := ParseRegDec(s);
    var d := r.value;
    assert s[..3] == KindPrefix(d.srcOrDst) by {
      if s[..3] == "Src" { assert d.srcOrDst == Src; } else { assert d.srcOrDst == Dst; }
    }
    FormatOfParts(s, d);
  }

  /** Character 3 is never inspected. */
  lemma ParseIgnoresFourthChar(s: string, c: char)
    requires 4 <= |s| < NPOS
    ensures ParseRegDec(s[..3] + [c] + s[4..]) == ParseRegDec(s)
  {
    var t := s[..3] + [c] + s[4..];
    assert t[..3] == s[..3] && t[4..] == s[4..];
    ParseDeterminedByHeadAndRest(s, t);
  }

  lemma ParseExampleSrc()
    ensures ParseRegDec("Src:1:3") == Success(RegDecDescriptor(Src, "1", "3"))
  {
    var d := RegDecDescriptor(Src, "1", "3");
    assert ':' !in d.regToChange;
    ParseFormatted(d, ':');
    assert KindPrefix(Src) + [':'] + "1" + ":" + "3" == "Src:1:3";
  }

  /** Later colons stay in the register text. */
  lemma ParseExampleDstExtraColon()
    ensures ParseRegDec("Dst:2:4:7") == Success(RegDecDescriptor(Dst, "2", "4:7"))
  {
    var d := RegDecDescriptor(Dst, "2", "4:7");
    assert ':' !in d.regToChange;
    ParseFormatted(d, ':');
    assert KindPrefix(Dst) + [':'] + "2" + ":" + "4:7" == "Dst:2:4:7";
  }

  /** Without a second colon both fields are the whole rest. */
  lemma ParseExampleNoSecondColon()
    ensures ParseRegDec("Src:12") == Success(RegDecDescriptor(Src, "12", "12"))
  {
    var s := "Src:12";
    assert s[..3] == "Src" && s[4..] == "12";
  }

  lemma ParseExampleErrors()
    ensures ParseRegDec("Src") == Failure(OutOfRange)
    ensures ParseRegDec("src:1:3") == Failure(UnknownPrefix)
  {
    assert "Src"[..3] == "Src";
    assert "src:1:3"[0] != "Src"[0] && "src:1:3"[0] != "Dst"[0];
  }

  /** The write of `process` with the bounds check it is meant to have: slot
      `idx` of the first `count` slots becomes `v`; any other index leaves the
      array as it was. */
  function Overwrite(regs: seq<int>, count: nat, idx: int, v: int): (r: seq<int>)
    requires count <= |regs|
    ensures |r| == |regs|
    ensures 0 <= idx < count ==> r[idx] == v
    ensures forall j :: 0 <= j < |regs| && j != idx ==> r[j] == regs[j]
    ensures !(0 <= idx < count) ==> r == regs
  {
    if 0 <= idx < count then regs[idx := v] else regs
  }

  /** What a write guarded only by `idx < count` does: for a negative index
      the guard passes and the store lands outside the array. */
  datatype Store = Stored(regs: seq<int>) | OutsideArray

  function OverwriteAsWritten(regs: seq<int>, count: nat, idx: int, v: int): (r: Store)
    requires count <= |regs|
    ensures r.OutsideArray? <==> idx < 0
    ensures r.Stored? ==> r.regs == Overwrite(regs, count, idx, v)
  {
    if idx < count then
      if 0 <= idx then Stored(regs[idx := v]) else OutsideArray
    else Stored(regs)
  }

  /** The slot `-1` passes the guard as written; the corrected write leaves
      the instruction alone. */
  lemma NegativeSlotPassesGuard()
    ensures OverwriteAsWritten([1, 1, 1], 3, -1, 2) == OutsideArray
    ensures Overwrite([1, 1, 1], 3, -1, 2) == [1, 1, 1]
  {
  }

  /** The slot-by-slot outcome of firing a descriptor on an instruction with
      the given register-index arrays. */
  lemma FiringScenario()
    ensures Overwrite([1, 1, 1], 3, 0, 2) == [2, 1, 1]
    ensures Overwrite([1, 1, 1], 3, 5, 2) == [1, 1, 1]
  {
  }

  /** The part of `StaticInst` that `process` touches: the source and
      destination register-index arrays and how many of their slots the
      instruction uses. */
  class StaticInst {
    const srcRegIdx: array<int>
    const destRegIdx: array<int>
    const numSrcRegs: nat
    const numDestRegs: nat

    predicate Valid()
    {
      numSrcRegs <= srcRegIdx.Length && numDestRegs <= destRegIdx.Length && srcRegIdx != destRegIdx
    }

    constructor (src: seq<int>, dest: seq<int>, nSrc: nat, nDest: nat)
      requires nSrc <= |src| && nDest <= |dest|
      ensures Valid() && fresh(srcRegIdx) && fresh(destRegIdx)
      ensures srcRegIdx[..] == src && destRegIdx[..] == dest
      ensures numSrcRegs == nSrc && numDestRegs == nDest
    {
      srcRegIdx := new int[|src|](i requires 0 <= i < |src| => src[i]);
      destRegIdx := new int[|dest|](i requires 0 <= i < |dest| => dest[i]);
      numSrcRegs, numDestRegs := nSrc, nDest;
    }
  }

  class RegisterDecodingFault {
    const id: FaultId
    const queue: FaultQueue
    const faultType: FaultType
    var srcOrDst: RegKind
    var regToChange: int
    var changeToReg: int

    /** Set the fields from a parsed descriptor (through the setters, which
        convert the substrings with `decode`), then join the decode queue. */
    constructor (id: FaultId, d: RegDecDescriptor, decode: string -> int, queue: FaultQueue)
      requires id !in queue.live
      modifies queue
      ensures this.id == id && this.queue == queue && faultType == RegisterDecodingInjectedFault
      ensures srcOrDst == d.srcOrDst
      ensures regToChange == decode(d.regToChange) && changeToReg == decode(d.changeToReg)
      ensures queue.live == old(queue.live) + {id} && queue.rescheduled == old(queue.rescheduled)
    {
      this.id := id;
      this.queue := queue;
      srcOrDst := d.srcOrDst;
      regToChange := decode(d.regToChange);
      changeToReg := decode(d.changeToReg);
      faultType := RegisterDecodingInjectedFault;
      new;
      queue.Insert(id);
    }

    /** The fixed kind name; it reads no state of the fault. */
    function Description(): (r: string)
      ensures r == "RegisterDecodingInjectedFault"
    {
      "RegisterDecodingInjectedFault"
    }

    /** `process(StaticInstPtr)`: overwrite one slot of the chosen
        register-index array when the slot is in use, otherwise leave the
        instruction alone; in both cases fire the reschedule hook once and hand
        back the same instruction. */
    method Process(inst: StaticInst) returns (r: StaticInst)
      requires inst.Valid()
      modifies inst.srcRegIdx, inst.destRegIdx, queue
      ensures r == inst
      ensures inst.srcRegIdx[..] ==
        if srcOrDst == Src then Overwrite(old(inst.srcRegIdx[..]), inst.numSrcRegs, regToChange, changeToReg)
        else old(inst.srcRegIdx[..])
      ensures inst.destRegIdx[..] ==
        if srcOrDst == Src then old(inst.destRegIdx[..])
        else Overwrite(old(inst.destRegIdx[..]), inst.numDestRegs, regToChange, changeToReg)
      ensures queue.live == old(queue.live) - {id} && !queue.HasPending(id)
      ensures queue.rescheduled == old(queue.rescheduled) + [id]
    {
      if srcOrDst == Src {
        var rTc := regToChange;
        if 0 <= rTc < inst.numSrcRegs {
          inst.srcRegIdx[rTc] := changeToReg;
        }
      } else {
        var rTc := regToChange;
        if 0 <= rTc < inst.numDestRegs {
          inst.destRegIdx[rTc] := changeToReg;
        }
      }
      queue.Reschedule(id);
      r := inst;
    }
  }

  /** The constructor of the source: parse the token, and only when that
      succeeds build the fault and put it in the decode-stage queue. The id
      stands for the new object's address, so no live entry carries it yet. */
  method Load(id: FaultId, token: string, decode: string -> int, queue: FaultQueue)
    returns (r: Result<RegisterDecodingFault>)
    requires |token| < NPOS
    requires id !in queue.live
    modifies queue
    ensures r.Failure? <==> ParseRegDec(token).Failure?
    ensures r.Failure? ==> r.error == ParseRegDec(token).error && queue.live == old(queue.live)
    ensures r.Success? ==> fresh(r.value) && r.value.id == id && r.value.queue == queue
    ensures r.Success? ==> r.value.faultType == RegisterDecodingInjectedFault
    ensures r.Success? ==> r.value.srcOrDst == ParseRegDec(token).value.srcOrDst
    ensures r.Success? ==> r.value.regToChange == decode(ParseRegDec(token).value.regToChange)
    ensures r.Success? ==> r.value.changeToReg == decode(ParseRegDec(token).value.changeToReg)
    ensures r.Success? ==> queue.live == old(queue.live) + {id}
    ensures queue.rescheduled == old(queue.rescheduled)
  {
    match ParseRegDec(token)
    case Failure(e) =>
      r := Failure(e);
    case Success(d) =>
      var f := new RegisterDecodingFault(id, d, decode, queue);
      r := Success(f);
  }
}
