/**
  The command test of the 8255 subdevice: it checks the five trigger
  arguments of an acquisition command, in a fixed order, against the only
  values the subdevice supports, and corrects the first one that differs.
  A caller that keeps handing the corrected command back is accepted after
  at most five rounds.
*/
module CommandTest {
  import opened Errno

  /** Trigger sources a command can name. */
  datatype Trigger = NoTrigger | Now | Follow | Count | External

  /** The command options the subdevice advertises when it has an interrupt line. */
  datatype CommandMask = CommandMask(
    subdevice: nat,
    startSrc: Trigger,
    scanBeginSrc: Trigger,
    convertSrc: Trigger,
    scanEndSrc: Trigger,
    stopSrc: Trigger)

  const Mask8255: CommandMask := CommandMask(0, Now, External, Follow, Count, NoTrigger)

  /** The five trigger arguments of a command, in the order the test checks them. */
  datatype Args = Args(start: bv32, scanBegin: bv32, convert: bv32, scanEnd: bv32, stop: bv32)

  /** The only arguments the subdevice accepts: one sample per scan, everything else zero. */
  const Expected: Args := Args(0, 0, 0, 1, 0)

  /** Argument `k` in checking order. */
  function Field(a: Args, k: nat): bv32
    requires k < 5
  {
    match k
    case 0 => a.start
    case 1 => a.scanBegin
    case 2 => a.convert
    case 3 => a.scanEnd
    case _ => a.stop
  }

  /** `a` with argument `k` replaced by `v`. */
  function WithField(a: Args, k: nat, v: bv32): (b: Args)
    requires k < 5
    ensures Field(b, k) == v
    ensures forall j :: 0 <= j < 5 && j != k ==> Field(b, j) == Field(a, j)
  {
    match k
    case 0 => a.(start := v)
    case 1 => a.(scanBegin := v)
    case 2 => a.(convert := v)
    case 3 => a.(scanEnd := v)
    case _ => a.(stop := v)
  }

  /** Two argument lists are equal exactly when they agree field by field. */
  lemma ArgsExtensional(a: Args, b: Args)
    requires forall k :: 0 <= k < 5 ==> Field(a, k) == Field(b, k)
    ensures a == b
  {
    assert Field(a, 0) == Field(b, 0) && Field(a, 1) == Field(b, 1) && Field(a, 2) == Field(b, 2);
    assert Field(a, 3) == Field(b, 3) && Field(a, 4) == Field(b, 4);
  }

  /**
    The position of the first argument that differs from the expected one,
    or 5 when none does.
  */
  function FirstMismatch(a: Args): (k: nat)
    ensures k <= 5
    ensures forall j :: 0 <= j < k ==> Field(a, j) == Field(Expected, j)
    ensures k < 5 ==> Field(a, k) != Field(Expected, k)
  {
    if a.start != 0 then 0
    else if a.scanBegin != 0 then 1
    else if a.convert != 0 then 2
    else if a.scanEnd != 1 then 3
    else if a.stop != 0 then 4
    else 5
  }

  /** The outcome of one test: the return code and the arguments as the test leaves them. */
  datatype Verdict = Verdict(code: int, corrected: Args)

  /**
    One test: accept unchanged arguments that are all as expected, otherwise
    reset the first one that is not and refuse with -EINVAL.
  */
  function Check(a: Args): Verdict
  {
    var k := FirstMismatch(a);
    if k == 5 then Verdict(0, a)
    else Verdict(-EINVAL, WithField(a, k, Field(Expected, k)))
  }

  /** The test accepts exactly the expected arguments, and accepting changes nothing. */
  lemma CheckAccepts(a: Args)
    ensures Check(a).code == 0 <==> a == Expected
    ensures Check(a).code == 0 ==> Check(a).corrected == a
    ensures Check(a).code == 0 || Check(a).code == -EINVAL
  {
    if FirstMismatch(a) == 5 {
      ArgsExtensional(a, Expected);
    }
  }

  /**
    A refusal corrects exactly one argument, the first wrong one: every
    argument before it was already right, and every argument after it is
    left as it was, right or wrong.
  */
  lemma CheckCorrectsFirst(a: Args)
    requires a != Expected
    ensures var k := FirstMismatch(a);
            && k < 5
            && Check(a).code == -EINVAL
            && Field(a, k) != Field(Expected, k)
            && Field(Check(a).corrected, k) == Field(Expected, k)
            && (forall j :: 0 <= j < k ==> Field(a, j) == Field(Expected, j))
            && (forall j :: 0 <= j < 5 && j != k ==> Field(Check(a).corrected, j) == Field(a, j))
  {
    CheckAccepts(a);
  }

  /** How many arguments differ from the expected ones, counted from position `k`. */
  function MismatchesFrom(a: Args, k: nat): nat
    requires k <= 5
    decreases 5 - k
  {
    if k == 5 then 0
    else (if Field(a, k) != Field(Expected, k) then 1 else 0) + MismatchesFrom(a, k + 1)
  }

  /** How many of the five arguments differ from the expected ones. */
  function Mismatches(a: Args): nat
  {
    MismatchesFrom(a, 0)
  }

  /** No mismatch is counted from `k` on exactly when all arguments from `k` on are right. */
  lemma {:induction false} NoMismatchesFrom(a: Args, k: nat)
    requires k <= 5
    ensures MismatchesFrom(a, k) <= 5 - k
    ensures MismatchesFrom(a, k) == 0 <==> forall j :: k <= j < 5 ==> Field(a, j) == Field(Expected, j)
    decreases 5 - k
  {
    if k < 5 {
      NoMismatchesFrom(a, k + 1);
    }
  }

  /** Replacing a wrong argument at position `i` by the right one lowers the count from `k` by one. */
  lemma {:induction false} FixOneFrom(a: Args, i: nat, k: nat)
    requires k <= i < 5 && Field(a, i) != Field(Expected, i)
    ensures MismatchesFrom(WithField(a, i, Field(Expected, i)), k) == MismatchesFrom(a, k) - 1
    decreases 5 - k
  {
    if k < i {
      FixOneFrom(a, i, k + 1);
    } else {
      SameFrom(a, WithField(a, i, Field(Expected, i)), k + 1);
    }
  }

  /** Argument lists that agree from position `k` on have the same count from `k`. */
  lemma {:induction false} SameFrom(a: Args, b: Args, k: nat)
    requires k <= 5
    requires forall j :: k <= j < 5 ==> Field(a, j) == Field(b, j)
    ensures MismatchesFrom(a, k) == MismatchesFrom(b, k)
    decreases 5 - k
  {
    if k < 5 {
      SameFrom(a, b, k + 1);
    }
  }

  /**
    Every refusal brings the arguments one mismatch closer to the expected
    ones, and the count is zero exactly when the test accepts.
  */
  lemma CheckProgress(a: Args)
    ensures Mismatches(a) <= 5
    ensures Mismatches(a) == 0 <==> Check(a).code == 0
    ensures Check(a).code != 0 ==> Mismatches(Check(a).corrected) == Mismatches(a) - 1
  {
    NoMismatchesFrom(a, 0);
    CheckAccepts(a);
    if FirstMismatch(a) < 5 {
      FixOneFrom(a, FirstMismatch(a), 0);
    } else {
      ArgsExtensional(a, Expected);
    }
  }

  /** The arguments after `n` rounds of testing and handing the corrected command back. */
  function Rounds(a: Args, n: nat): Args
    decreases n
  {
    if n == 0 then a else Rounds(Check(a).corrected, n - 1)
  }

  /**
    Handing the corrected command back converges: the first Mismatches(a)
    rounds, at most five, are all refused, and the round after them accepts.
  */
  lemma {:induction false} Converges(a: Args)
    ensures Mismatches(a) <= 5
    ensures Check(Rounds(a, Mismatches(a))).code == 0
    ensures Rounds(a, Mismatches(a)) == Expected
    ensures forall i :: 0 <= i < Mismatches(a) ==> Check(Rounds(a, i)).code == -EINVAL
    decreases Mismatches(a)
  {
    CheckProgress(a);
    CheckAccepts(a);
    if Mismatches(a) > 0 {
      var b := Check(a).corrected;
      assert Mismatches(b) < Mismatches(a);
      Converges(b);
      assert Rounds(a, Mismatches(a)) == Rounds(b, Mismatches(b));
      forall i | 0 <= i < Mismatches(a)
        ensures Check(Rounds(a, i)).code == -EINVAL
      {
        if i > 0 {
          assert Rounds(a, i) == Rounds(b, i - 1);
        }
      }
    }
  }

  /** A command as the test sees it: five trigger sources and their arguments. */
  class Command {
    var startSrc: Trigger
    var scanBeginSrc: Trigger
    var convertSrc: Trigger
    var scanEndSrc: Trigger
    var stopSrc: Trigger
    var startArg: bv32
    var scanBeginArg: bv32
    var convertArg: bv32
    var scanEndArg: bv32
    var stopArg: bv32

    /** The five arguments in checking order. */
    function Arguments(): Args
      reads this
    {
      Args(startArg, scanBeginArg, convertArg, scanEndArg, stopArg)
    }

    /** The five sources in checking order. */
    function Sources(): seq<Trigger>
      reads this
    {
      [startSrc, scanBeginSrc, convertSrc, scanEndSrc, stopSrc]
    }

    constructor (sources: seq<Trigger>, args: Args)
      requires |sources| == 5
      ensures Sources() == sources && Arguments() == args
    {
      startSrc, scanBeginSrc, convertSrc, scanEndSrc, stopSrc :=
        sources[0], sources[1], sources[2], sources[3], sources[4];
      startArg, scanBeginArg, convertArg, scanEndArg, stopArg :=
        args.start, args.scanBegin, args.convert, args.scanEnd, args.stop;
    }
  }

  /**
    The command test: corrects the first argument of `cmd` that differs from
    the expected one and returns -EINVAL, or returns 0 and changes nothing
    when all five are right. The sources are never looked at.
  */
  method CmdTest(cmd: Command) returns (r: int)
    modifies cmd
    ensures r == Check(old(cmd.Arguments())).code
    ensures cmd.Arguments() == Check(old(cmd.Arguments())).corrected
    ensures cmd.Sources() == old(cmd.Sources())
  {
    if cmd.startArg != 0 {
      cmd.startArg := 0;
      return -EINVAL;
    }
    if cmd.scanBeginArg != 0 {
      cmd.scanBeginArg := 0;
      return -EINVAL;
    }
    if cmd.convertArg != 0 {
      cmd.convertArg := 0;
      return -EINVAL;
    }
    if cmd.scanEndArg != 1 {
      cmd.scanEndArg := 1;
      return -EINVAL;
    }
    if cmd.stopArg != 0 {
      cmd.stopArg := 0;
      return -EINVAL;
    }
    return 0;
  }
}
