/** Client code: what a stage driver can conclude from the contracts alone. */
module Scenarios {
  import opened Outcomes
  import opened FaultQueues
  import opened RegDec
  import opened IewFault

  /** A stand-in for the setters' string-to-integer conversion, enough for
      one-digit descriptors. */
  function SingleDigit(s: string): int
  {
    if |s| == 1 && '0' <= s[0] <= '9' then s[0] as int - '0' as int else -1
  }

  /** `Src:0:2` on source registers `[1,1,1]` gives `[2,1,1]`, and the fault
      fires once. */
  method DecodeStageInBounds()
  {
    var q := new FaultQueue();
    ParseExampleDigits();
    var loaded := Load(7, "Src:0:2", SingleDigit, q);
    assert loaded.Success? && q.HasPending(7);
    var f := loaded.value;
    assert f.srcOrDst == Src && f.regToChange == 0 && f.changeToReg == 2;

    var inst := new StaticInst([1, 1, 1], [4], 3, 1);
    var same := f.Process(inst);
    assert same == inst;
    assert inst.srcRegIdx[..] == [2, 1, 1];
    assert inst.destRegIdx[..] == [4];
    assert !q.HasPending(7) && q.rescheduled == [7];
  }

  /** `Src:5:2` on an instruction with three source registers changes
      nothing, yet the fault still fires. */
  method DecodeStageOutOfBounds()
  {
    var q := new FaultQueue();
    ParseExampleDigits();
    var loaded := Load(8, "Src:5:2", SingleDigit, q);
    assert loaded.Success?;
    var g := loaded.value;
    assert g.srcOrDst == Src && g.regToChange == 5;
    var inst := new StaticInst([1, 1, 1], [4], 3, 1);
    var _ := g.Process(inst);
    assert inst.srcRegIdx[..] == [1, 1, 1];
    assert inst.destRegIdx[..] == [4];
    assert q.rescheduled == [8] && q.live == {};
  }

  lemma ParseExampleDigits()
    ensures ParseRegDec("Src:0:2") == Success(RegDecDescriptor(Src, "0", "2"))
    ensures ParseRegDec("Src:5:2") == Success(RegDecDescriptor(Src, "5", "2"))
  {
    ParseFormatted(RegDecDescriptor(Src, "0", "2"), ':');
    assert "Src:0:2" == KindPrefix(Src) + [':'] + "0" + ":" + "2";
    ParseFormatted(RegDecDescriptor(Src, "5", "2"), ':');
    assert "Src:5:2" == KindPrefix(Src) + [':'] + "5" + ":" + "2";
  }

  /** In an Alpha build a branch condition is inverted and the fault fires
      once. */
  method IewStageAlphaBuild()
  {
    var build := Build(true);
    var q := new FaultQueue();
    var f := new IEWStageFault<int, bool>(1, 3, true, q);
    q.Insert(1);
    var c := f.ProcessBool(build, true);
    assert c == Success(false) && !q.HasPending(1) && q.rescheduled == [1];
  }

  /** In any other build the value entry points fail and the fault stays
      pending; the placeholder entry point detaches it without the hook. */
  method IewStageOtherBuild()
  {
    var build := Build(false);
    var q := new FaultQueue();
    var g := new IEWStageFault<int, bool>(2, 3, true, q);
    q.Insert(2);
    var d := g.Process(build, 5, (x: int, p: int, t: bool) => x + p);
    assert d == Failure(ArchMismatch) && q.HasPending(2);
    var e := g.ProcessVoid();
    assert e.Failure? && !q.HasPending(2) && q.rescheduled == [];
  }
}
