/**
  The standalone 8255 device: attaching creates one digital-I/O subdevice
  per base address passed as an attach option, reserving the chip's I/O
  region for each; detaching releases the regions again. The kernel's I/O
  port registry is modelled as the set of regions currently claimed.
*/
module Device8255 {
  import opened Errno
  import opened Registers
  import opened Chip8255
  import opened CommandTest

  datatype Option<T> = None | Some(value: T)

  /** Size in bytes of one address in the attach options. */
  const LongSize: nat := 8

  // ---------------------------------------------------------------------
  // Subdevice records

  datatype Aref = Ground
  datatype Chan = Chan(aref: Aref, sampleSize: nat)
  /** A channel descriptor; `global` means the one entry of `chans` applies to every channel. */
  datatype ChanDesc = ChanDesc(global: bool, length: nat, chans: seq<Chan>)

  /** 24 channels referenced to ground, each sample two bytes wide. */
  const ChanDesc8255: ChanDesc := ChanDesc(true, 24, [Chan(Ground, 2)])

  datatype Flag = Dio | Cmd | Unused

  /** The entry points a subdevice record can carry. */
  datatype Handler = BitsHandler | ConfigHandler | CmdTestHandler | CmdHandler | CancelHandler

  /** A subdevice record with its private 8255 state. */
  datatype Subd = Subd(
    flags: set<Flag>,
    chanDesc: Option<ChanDesc>,
    handlers: set<Handler>,
    cmdMask: Option<CommandMask>,
    priv: Chip?)

  /** The handlers a subdevice gets when its chip has, or has not, an interrupt line. */
  function Handlers8255(haveIrq: bool): set<Handler>
  {
    {BitsHandler, ConfigHandler} + (if haveIrq then {CmdTestHandler, CmdHandler, CancelHandler} else {})
  }

  /**
    Wires a subdevice up as an 8255 digital-I/O subdevice and programs the
    chip with the control word its direction mask asks for. The command
    entry points and the command mask are installed only when the chip has
    an interrupt line.
  */
  method Init(s: Subd) returns (t: Subd)
    requires s.priv != null && s.priv.Valid()
    modifies s.priv, s.priv.ports
    ensures t.priv == s.priv
    ensures t.flags == {Dio, Cmd}
    ensures t.chanDesc == Some(ChanDesc8255)
    ensures t.handlers == Handlers8255(s.priv.haveIrq) + s.handlers
    ensures t.cmdMask == if s.priv.haveIrq then Some(Mask8255) else s.cmdMask
    ensures s.priv.control == ControlWord(s.priv.ioBits)
    ensures s.priv.log == old(s.priv.log) + [PortWrite(ControlPort, s.priv.control)]
    ensures s.priv.status == old(s.priv.status) && s.priv.ioBits == old(s.priv.ioBits)
    ensures s.priv.ports[..] == old(s.priv.ports[..])
  {
    t := s.(flags := {Dio});
    t := t.(flags := t.flags + {Cmd});
    t := t.(chanDesc := Some(ChanDesc8255));
    t := t.(handlers := t.handlers + {BitsHandler, ConfigHandler});
    if s.priv.haveIrq {
      t := t.(cmdMask := Some(Mask8255));
      t := t.(handlers := t.handlers + {CmdTestHandler, CmdHandler, CancelHandler});
    }
    s.priv.DoConfig();
  }

  /** With every channel an input, the control word is 0x9b. */
  lemma AllInputsControlWord()
    ensures ControlWord(0) == 0x9b
  {
    FlagA(0);
    FlagB(0);
    FlagCLow(0);
    FlagCHigh(0);
    ControlWordModeSet(0);
    ControlWordNoOtherBits(0);
  }

  /** The device: its subdevices in the order they were added. */
  class Device {
    var subds: seq<Subd>

    constructor ()
      ensures subds == []
    {
      subds := [];
    }

    /**
      Adds a subdevice. Whether the subsystem accepts it is not part of
      this model and arrives as `result`: a negative error code refuses it.
    */
    method Add(s: Subd, result: int) returns (err: int)
      modifies this
      ensures err == result
      ensures subds == if result < 0 then old(subds) else old(subds) + [s]
    {
      err := result;
      if err >= 0 {
        subds := subds + [s];
      }
    }
  }

  // ---------------------------------------------------------------------
  // I/O region reservation

  /** The I/O addresses start, ..., start + size - 1. */
  datatype Region = Region(start: nat, size: nat)

  predicate Overlap(r: Region, q: Region) {
    r.start < q.start + q.size && q.start < r.start + r.size
  }

  /** Whether region `r` shares no address with any claimed region. */
  predicate Free(claimed: set<Region>, r: Region) {
    forall c :: c in claimed ==> !Overlap(c, r)
  }

  /** No two distinct claimed regions share an address. */
  predicate PairwiseDisjoint(claimed: set<Region>) {
    forall c, d :: c in claimed && d in claimed && c != d ==> !Overlap(c, d)
  }

  /** Claiming a free region keeps the claimed regions pairwise disjoint. */
  lemma ClaimKeepsDisjoint(claimed: set<Region>, r: Region)
    requires PairwiseDisjoint(claimed) && Free(claimed, r)
    ensures PairwiseDisjoint(claimed + {r})
  {
    forall c, d | c in claimed + {r} && d in claimed + {r} && c != d
      ensures !Overlap(c, d)
    {
      if c == r {
        assert !Overlap(d, r);
      } else if d == r {
        assert !Overlap(c, r);
      }
    }
  }

  /** The kernel's registry of claimed I/O regions. */
  class IoSpace {
    var claimed: set<Region>

    constructor ()
      ensures claimed == {}
    {
      claimed := {};
    }

    /** Claims `size` addresses from `start`; refused when any of them is already claimed. */
    method Request(start: nat, size: nat) returns (ok: bool)
      modifies this
      ensures ok <==> Free(old(claimed), Region(start, size))
      ensures claimed == if ok then old(claimed) + {Region(start, size)} else old(claimed)
    {
      ok := forall c | c in claimed :: !Overlap(c, Region(start, size));
      if ok {
        claimed := claimed + {Region(start, size)};
      }
    }

    /** Gives the region back. */
    method Release(start: nat, size: nat)
      modifies this
      ensures claimed == old(claimed) - {Region(start, size)}
    {
      claimed := claimed - {Region(start, size)};
    }
  }

  // ---------------------------------------------------------------------
  // Attach

  /** What attach made of one address: a reserved chip at `base`, or an unused subdevice. */
  datatype Entry = Reserved(base: nat) | Skipped

  /** The outcome of attach: the return code, the claimed regions and the subdevices added. */
  datatype Plan = Plan(err: int, claimed: set<Region>, entries: seq<Entry>)

  /**
    The attach loop over `addrs`, starting from return code `err` and the
    regions `claimed`. `alloc` and `add` say, per address, whether the
    subdevice could be allocated and what adding it returned. An
    allocation failure stops with -ENOMEM; a refused add stops with its
    error, after that address's region was claimed; otherwise the return
    code is that of the last add.
  */
  function AttachPlan(err: int, claimed: set<Region>, addrs: seq<nat>, alloc: seq<bool>, add: seq<int>): Plan
    requires |alloc| == |addrs| && |add| == |addrs|
    decreases |addrs|
  {
    if addrs == [] then Plan(err, claimed, [])
    else if !alloc[0] then Plan(-ENOMEM, claimed, [])
    else
      var r := Region(addrs[0], RegionSize);
      var entry := if Free(claimed, r) then Reserved(addrs[0]) else Skipped;
      var claimed' := if Free(claimed, r) then claimed + {r} else claimed;
      if add[0] < 0 then Plan(add[0], claimed', [])
      else
        var rest := AttachPlan(add[0], claimed', addrs[1..], alloc[1..], add[1..]);
        Plan(rest.err, rest.claimed, [entry] + rest.entries)
  }

  /** The regions of the reserved entries. */
  function ReservedRegions(entries: seq<Entry>): set<Region>
  {
    set e | e in entries && e.Reserved? :: Region(e.base, RegionSize)
  }

  lemma ReservedRegionsConcat(a: seq<Entry>, b: seq<Entry>)
    ensures ReservedRegions(a + b) == ReservedRegions(a) + ReservedRegions(b)
  {
    forall r | r in ReservedRegions(a + b)
      ensures r in ReservedRegions(a) + ReservedRegions(b)
    {
      var e :| e in a + b && e.Reserved? && r == Region(e.base, RegionSize);
      if e in a {
        assert r in ReservedRegions(a);
      } else {
        assert r in ReservedRegions(b);
      }
    }
    forall r | r in ReservedRegions(a) + ReservedRegions(b)
      ensures r in ReservedRegions(a + b)
    {
      if r in ReservedRegions(a) {
        var e :| e in a && e.Reserved? && r == Region(e.base, RegionSize);
        assert e in a + b;
      } else {
        var e :| e in b && e.Reserved? && r == Region(e.base, RegionSize);
        assert e in a + b;
      }
    }
  }

  /**
    What attach claims: it only ever adds regions, it keeps the claimed
    regions pairwise disjoint, every reserved subdevice's region is among
    the new claims, and at most one region per address is added.
  */
  lemma {:induction false} AttachPlanClaims(err: int, claimed: set<Region>, addrs: seq<nat>, alloc: seq<bool>, add: seq<int>)
    requires |alloc| == |addrs| && |add| == |addrs|
    ensures var p := AttachPlan(err, claimed, addrs, alloc, add);
            && claimed <= p.claimed
            && (PairwiseDisjoint(claimed) ==> PairwiseDisjoint(p.claimed))
            && ReservedRegions(p.entries) <= p.claimed - claimed
            && |p.entries| <= |addrs|
            && (forall c :: c in p.claimed - claimed ==> exists a :: a in addrs && c == Region(a, RegionSize))
    decreases |addrs|
  {
    if addrs != [] && alloc[0] {
      var r := Region(addrs[0], RegionSize);
      var claimed' := if Free(claimed, r) then claimed + {r} else claimed;
      if Free(claimed, r) && PairwiseDisjoint(claimed) {
        ClaimKeepsDisjoint(claimed, r);
      }
      if add[0] >= 0 {
        AttachPlanClaims(add[0], claimed', addrs[1..], alloc[1..], add[1..]);
        var rest := AttachPlan(add[0], claimed', addrs[1..], alloc[1..], add[1..]);
        var p := AttachPlan(err, claimed, addrs, alloc, add);
        assert p.entries == [if Free(claimed, r) then Reserved(addrs[0]) else Skipped] + rest.entries;
        forall c | c in p.claimed - claimed
          ensures exists a :: a in addrs && c == Region(a, RegionSize)
        {
          if c !in rest.claimed - claimed' {
            assert c == r;
          } else {
            var a :| a in addrs[1..] && c == Region(a, RegionSize);
            assert a in addrs;
          }
        }
        forall e | e in p.entries && e.Reserved?
          ensures Region(e.base, RegionSize) in p.claimed - claimed
        {
          if e !in rest.entries {
            assert e == Reserved(addrs[0]);
          } else {
            assert Region(e.base, RegionSize) in ReservedRegions(rest.entries);
          }
        }
      }
    }
  }

  /**
    When no add is refused, attach claims exactly the regions of the
    subdevices it added, none of which was claimed before; this holds also
    when a failed allocation cuts it short.
  */
  lemma {:induction false} AttachPlanNoRefusal(err: int, claimed: set<Region>, addrs: seq<nat>, alloc: seq<bool>, add: seq<int>)
    requires |alloc| == |addrs| && |add| == |addrs|
    requires forall i :: 0 <= i < |addrs| ==> add[i] >= 0
    ensures var p := AttachPlan(err, claimed, addrs, alloc, add);
            && p.claimed == claimed + ReservedRegions(p.entries)
            && ReservedRegions(p.entries) !! claimed
    decreases |addrs|
  {
    if addrs != [] && alloc[0] {
      var r := Region(addrs[0], RegionSize);
      var claimed' := if Free(claimed, r) then claimed + {r} else claimed;
      AttachPlanNoRefusal(add[0], claimed', addrs[1..], alloc[1..], add[1..]);
      var rest := AttachPlan(add[0], claimed', addrs[1..], alloc[1..], add[1..]);
      var entry := if Free(claimed, r) then Reserved(addrs[0]) else Skipped;
      assert AttachPlan(err, claimed, addrs, alloc, add).entries == [entry] + rest.entries;
      ReservedRegionsConcat([entry], rest.entries);
      if Free(claimed, r) {
        assert Overlap(r, r);
        assert r !in claimed;
      }
    }
  }

  /**
    When every allocation and every add succeeds, attach adds one subdevice
    per address and returns the last add's result (or `err` for no address).
  */
  lemma {:induction false} AttachPlanAllSucceed(err: int, claimed: set<Region>, addrs: seq<nat>, alloc: seq<bool>, add: seq<int>)
    requires |alloc| == |addrs| && |add| == |addrs|
    requires forall i :: 0 <= i < |addrs| ==> alloc[i] && add[i] >= 0
    ensures var p := AttachPlan(err, claimed, addrs, alloc, add);
            && |p.entries| == |addrs|
            && p.err == (if addrs == [] then err else add[|add| - 1])
    decreases |addrs|
  {
    if addrs != [] {
      var r := Region(addrs[0], RegionSize);
      var claimed' := if Free(claimed, r) then claimed + {r} else claimed;
      AttachPlanAllSucceed(add[0], claimed', addrs[1..], alloc[1..], add[1..]);
    }
  }

  /**
    A refused add at position `i`, after `i` rounds that all went through,
    ends attach with the add's error. The subdevices are those of the
    first `i` rounds, and the claimed regions are theirs plus the refused
    chip's region when it was free.
  */
  lemma {:induction false} RefusedAddPlan(err: int, claimed: set<Region>, addrs: seq<nat>, alloc: seq<bool>, add: seq<int>, i: nat)
    requires |alloc| == |addrs| && |add| == |addrs| && i < |addrs|
    requires forall j :: 0 <= j < i ==> alloc[j] && add[j] >= 0
    requires alloc[i] && add[i] < 0
    ensures var p := AttachPlan(err, claimed, addrs, alloc, add);
            var q := AttachPlan(err, claimed, addrs[..i], alloc[..i], add[..i]);
            && p.err == add[i]
            && p.entries == q.entries
            && |p.entries| == i
            && p.claimed == ClaimedAfter(q.claimed, addrs[i])
    decreases i
  {
    if i > 0 {
      var r := Region(addrs[0], RegionSize);
      var claimed' := if Free(claimed, r) then claimed + {r} else claimed;
      RefusedAddPlan(add[0], claimed', addrs[1..], alloc[1..], add[1..], i - 1);
      assert addrs[..i][0] == addrs[0] && addrs[..i][1..] == addrs[1..][..i - 1];
      assert alloc[..i][0] == alloc[0] && alloc[..i][1..] == alloc[1..][..i - 1];
      assert add[..i][0] == add[0] && add[..i][1..] == add[1..][..i - 1];
    }
  }

  /** The subdevice record attach leaves for each entry, and the state of its chip. */
  ghost predicate Describes(s: Subd, e: Entry)
    reads s.priv
  {
    && s.priv != null
    && s.priv.Valid()
    && !s.priv.haveIrq
    && match e
       case Skipped =>
         && s.flags == {Unused} && s.chanDesc == None && s.handlers == {} && s.cmdMask == None
         && s.priv.cbArg == 0 && s.priv.ioBits == 0 && s.priv.status == 0 && s.priv.log == []
       case Reserved(base) =>
         && s.flags == {Dio, Cmd} && s.chanDesc == Some(ChanDesc8255)
         && s.handlers == Handlers8255(false) && s.cmdMask == None
         && s.priv.cbArg == base && s.priv.ioBits == 0 && s.priv.status == 0
         && s.priv.control == 0x9b
         && s.priv.log == [PortWrite(ControlPort, 0x9b)]
  }

  /** Each subdevice record is the one attach leaves for the matching entry. */
  ghost predicate AllDescribe(subds: seq<Subd>, entries: seq<Entry>)
    reads set j | 0 <= j < |subds| :: subds[j].priv
  {
    |subds| == |entries| && forall j :: 0 <= j < |subds| ==> Describes(subds[j], entries[j])
  }

  lemma AllDescribeAppend(subds: seq<Subd>, entries: seq<Entry>, s: Subd, e: Entry)
    requires AllDescribe(subds, entries) && Describes(s, e)
    ensures AllDescribe(subds + [s], entries + [e])
  {
  }

  /** `p` with `done` put in front of its entries. */
  function After(done: seq<Entry>, p: Plan): Plan
  {
    Plan(p.err, p.claimed, done + p.entries)
  }

  /** The region attach claims for a chip at `base`, when it is free. */
  function ClaimedAfter(claimed: set<Region>, base: nat): set<Region>
  {
    var r := Region(base, RegionSize);
    if Free(claimed, r) then claimed + {r} else claimed
  }

  /** What attach makes of a chip at `base`. */
  function EntryFor(claimed: set<Region>, base: nat): Entry
  {
    if Free(claimed, Region(base, RegionSize)) then Reserved(base) else Skipped
  }

  /** The loop's view of the plan: a round that carries on moves one entry into `done`. */
  lemma AttachRoundContinues(whole: Plan, done: seq<Entry>, err: int, claimed: set<Region>,
                             addrs: seq<nat>, alloc: seq<bool>, add: seq<int>, i: nat, n: nat)
    requires i < n <= |addrs| && n <= |alloc| && n <= |add|
    requires whole == After(done, AttachPlan(err, claimed, addrs[i..n], alloc[i..n], add[i..n]))
    requires alloc[i] && add[i] >= 0
    ensures whole == After(done + [EntryFor(claimed, addrs[i])],
                           AttachPlan(add[i], ClaimedAfter(claimed, addrs[i]), addrs[i + 1..n], alloc[i + 1..n], add[i + 1..n]))
  {
    assert addrs[i..n][0] == addrs[i] && addrs[i..n][1..] == addrs[i + 1..n];
    assert alloc[i..n][0] == alloc[i] && alloc[i..n][1..] == alloc[i + 1..n];
    assert add[i..n][0] == add[i] && add[i..n][1..] == add[i + 1..n];
  }

  /** The loop's view of the plan: a failed allocation ends it with -ENOMEM. */
  lemma AttachRoundNoMemory(whole: Plan, done: seq<Entry>, err: int, claimed: set<Region>,
                            addrs: seq<nat>, alloc: seq<bool>, add: seq<int>, i: nat, n: nat)
    requires i < n <= |addrs| && n <= |alloc| && n <= |add|
    requires whole == After(done, AttachPlan(err, claimed, addrs[i..n], alloc[i..n], add[i..n]))
    requires !alloc[i]
    ensures whole == Plan(-ENOMEM, claimed, done)
  {
    assert alloc[i..n][0] == alloc[i];
    assert done + [] == done;
  }

  /** The loop's view of the plan: a refused add ends it with the add's error. */
  lemma AttachRoundRefused(whole: Plan, done: seq<Entry>, err: int, claimed: set<Region>,
                           addrs: seq<nat>, alloc: seq<bool>, add: seq<int>, i: nat, n: nat)
    requires i < n <= |addrs| && n <= |alloc| && n <= |add|
    requires whole == After(done, AttachPlan(err, claimed, addrs[i..n], alloc[i..n], add[i..n]))
    requires alloc[i] && add[i] < 0
    ensures whole == Plan(add[i], ClaimedAfter(claimed, addrs[i]), done)
  {
    assert addrs[i..n][0] == addrs[i];
    assert alloc[i..n][0] == alloc[i];
    assert add[i..n][0] == add[i];
    assert done + [] == done;
  }

  /** The loop's view of the plan: with no address left it is what the loop has gathered. */
  lemma AttachRoundsDone(whole: Plan, done: seq<Entry>, err: int, claimed: set<Region>,
                         addrs: seq<nat>, alloc: seq<bool>, add: seq<int>, n: nat)
    requires n <= |addrs| && n <= |alloc| && n <= |add|
    requires whole == After(done, AttachPlan(err, claimed, addrs[n..n], alloc[n..n], add[n..n]))
    ensures whole == Plan(err, claimed, done)
  {
    assert addrs[n..n] == [];
    assert done + [] == done;
  }

  /**
    One round of the attach loop once the subdevice is allocated: reserves
    the chip's region and, if that succeeds, records the base address and
    initialises the subdevice, or else marks it unused; then adds it.
  */
  method AttachOne(dev: Device, io: IoSpace, addr: nat, addResult: int, ghost n0: nat, ghost done: seq<Entry>)
    returns (err: int, ghost entry: Entry)
    requires |dev.subds| >= n0 && AllDescribe(dev.subds[n0..], done)
    modifies dev, io
    ensures entry == EntryFor(old(io.claimed), addr)
    ensures io.claimed == ClaimedAfter(old(io.claimed), addr)
    ensures err == addResult
    ensures addResult < 0 ==> dev.subds == old(dev.subds)
    ensures addResult >= 0 ==>
              && |dev.subds| > n0
              && dev.subds[..n0] == old(dev.subds)[..n0]
              && AllDescribe(dev.subds[n0..], done + [entry])
  {
    var subd: Subd;
    var ok := io.Request(addr, RegionSize);
    if !ok {
      // The record is zeroed, so the base address stays 0.
      var chip := new Chip(0, false);
      subd := Subd({Unused}, None, {}, None, chip);
      entry := Skipped;
    } else {
      var chip := new Chip(addr, false);
      subd := Init(Subd({}, None, {}, None, chip));
      AllInputsControlWord();
      entry := Reserved(addr);
    }
    ghost var before := dev.subds;
    err := dev.Add(subd, addResult);
    if err >= 0 {
      assert dev.subds[n0..] == before[n0..] + [subd];
      AllDescribeAppend(before[n0..], done, subd, entry);
    }
  }

  /**
    Attaches the device. Missing options are refused with -EINVAL and
    nothing else happens. Otherwise the options are read as
    `optsSize / LongSize` base addresses and the result is the attach plan
    over them: the return code, the claimed regions and one new subdevice
    per planned entry, after the subdevices the device already had.
  */
  method Attach(dev: Device, io: IoSpace, opts: Option<seq<nat>>, optsSize: nat,
                alloc: seq<bool>, add: seq<int>) returns (err: int)
    requires opts.Some? ==> |opts.value| >= optsSize / LongSize
    requires |alloc| >= optsSize / LongSize && |add| >= optsSize / LongSize
    modifies dev, io
    ensures opts.None? || optsSize == 0 ==>
              err == -EINVAL && dev.subds == old(dev.subds) && io.claimed == old(io.claimed)
    ensures opts.Some? && optsSize > 0 ==>
              var n := optsSize / LongSize;
              var p := AttachPlan(0, old(io.claimed), opts.value[..n], alloc[..n], add[..n]);
              && err == p.err && io.claimed == p.claimed
              && |dev.subds| >= |old(dev.subds)|
              && dev.subds[..|old(dev.subds)|] == old(dev.subds)
              && AllDescribe(dev.subds[|old(dev.subds)|..], p.entries)
  {
    if opts.None? || optsSize == 0 {
      return -EINVAL;
    }
    err := AttachAll(dev, io, opts.value, optsSize / LongSize, alloc, add);
  }

  /**
    The attach loop over the first `n` addresses: one subdevice per
    address until an allocation fails or an add is refused.
  */
  method AttachAll(dev: Device, io: IoSpace, addrs: seq<nat>, n: nat, alloc: seq<bool>, add: seq<int>)
    returns (err: int)
    requires n <= |addrs| && n <= |alloc| && n <= |add|
    modifies dev, io
    ensures var p := AttachPlan(0, old(io.claimed), addrs[..n], alloc[..n], add[..n]);
            && err == p.err && io.claimed == p.claimed
            && |dev.subds| >= |old(dev.subds)|
            && dev.subds[..|old(dev.subds)|] == old(dev.subds)
            && AllDescribe(dev.subds[|old(dev.subds)|..], p.entries)
  {
    ghost var n0 := |dev.subds|;
    ghost var whole := AttachPlan(0, io.claimed, addrs[..n], alloc[..n], add[..n]);
    ghost var done: seq<Entry> := [];
    assert addrs[0..n] == addrs[..n] && alloc[0..n] == alloc[..n] && add[0..n] == add[..n];
    assert dev.subds[n0..] == [];
    err := 0;
    var i := 0;
    while i < n
      invariant 0 <= i <= n
      invariant whole == After(done, AttachPlan(err, io.claimed, addrs[i..n], alloc[i..n], add[i..n]))
      invariant |dev.subds| >= n0
      invariant dev.subds[..n0] == old(dev.subds)
      invariant AllDescribe(dev.subds[n0..], done)
    {
      if !alloc[i] {
        AttachRoundNoMemory(whole, done, err, io.claimed, addrs, alloc, add, i, n);
        return -ENOMEM;
      }
      ghost var entry;
      ghost var claimed := io.claimed;
      ghost var err0 := err;
      err, entry := AttachOne(dev, io, addrs[i], add[i], n0, done);
      if err < 0 {
        AttachRoundRefused(whole, done, err0, claimed, addrs, alloc, add, i, n);
        return;
      }
      AttachRoundContinues(whole, done, err0, claimed, addrs, alloc, add, i, n);
      done := done + [entry];
      i := i + 1;
    }
    AttachRoundsDone(whole, done, err, io.claimed, addrs, alloc, add, n);
  }

  // ---------------------------------------------------------------------
  // Detach

  /** The regions detach gives back: one per subdevice whose chip has a non-zero base address. */
  function Released(subds: seq<Subd>): set<Region>
  {
    if subds == [] then {}
    else
      var s := subds[|subds| - 1];
      Released(subds[..|subds| - 1])
      + (if s.priv != null && s.priv.cbArg != 0 then {Region(s.priv.cbArg, RegionSize)} else {})
  }

  /**
    Detaches the device: releases the region of every subdevice whose
    private record holds a non-zero base address, in order, and returns 0.
  */
  method Detach(dev: Device, io: IoSpace) returns (r: int)
    modifies io
    ensures r == 0
    ensures io.claimed == old(io.claimed) - Released(dev.subds)
  {
    var i := 0;
    while i < |dev.subds|
      invariant 0 <= i <= |dev.subds|
      invariant io.claimed == old(io.claimed) - Released(dev.subds[..i])
    {
      var s := dev.subds[i];
      assert dev.subds[..i + 1][..i] == dev.subds[..i];
      if s.priv != null && s.priv.cbArg != 0 {
        io.Release(s.priv.cbArg, RegionSize);
      }
      i := i + 1;
    }
    assert dev.subds[..i] == dev.subds;
    r := 0;
  }

  /**
    Detach gives back exactly the regions of the reserved subdevices whose
    base address is non-zero; skipped subdevices give back nothing.
  */
  lemma {:induction false} ReleasedOfDescribed(subds: seq<Subd>, entries: seq<Entry>)
    requires |subds| == |entries|
    requires forall j :: 0 <= j < |subds| ==> Describes(subds[j], entries[j])
    ensures Released(subds) == set e | e in entries && e.Reserved? && e.base != 0 :: Region(e.base, RegionSize)
  {
    if subds != [] {
      var k := |subds| - 1;
      ReleasedOfDescribed(subds[..k], entries[..k]);
      assert entries == entries[..k] + [entries[k]];
    }
  }

  /**
    Detach undoes attach: when no add is refused and no base address is 0,
    releasing the regions of the subdevices attach added gives back exactly
    the regions claimed before it, whether or not an allocation failed.
  */
  lemma AttachThenDetach(claimed: set<Region>, addrs: seq<nat>, alloc: seq<bool>, add: seq<int>, added: seq<Subd>)
    requires |alloc| == |addrs| && |add| == |addrs|
    requires forall i :: 0 <= i < |addrs| ==> add[i] >= 0 && addrs[i] != 0
    requires var p := AttachPlan(0, claimed, addrs, alloc, add);
             |added| == |p.entries| && forall j :: 0 <= j < |added| ==> Describes(added[j], p.entries[j])
    ensures AttachPlan(0, claimed, addrs, alloc, add).claimed - Released(added) == claimed
  {
    var p := AttachPlan(0, claimed, addrs, alloc, add);
    AttachPlanNoRefusal(0, claimed, addrs, alloc, add);
    AttachPlanClaims(0, claimed, addrs, alloc, add);
    ReleasedOfDescribed(added, p.entries);
    forall e | e in p.entries && e.Reserved?
      ensures e.base != 0
    {
      assert Region(e.base, RegionSize) in p.claimed - claimed;
      var a :| a in addrs && Region(e.base, RegionSize) == Region(a, RegionSize);
    }
    assert Released(added) == ReservedRegions(p.entries);
  }

  /**
    A chip at base address 0 is reserved by attach like any other when its
    region is free, but detach reads a zero base address as "nothing
    reserved": no list of subdevices attach leaves ever gives that region
    back.
  */
  lemma ZeroBaseReserved(claimed: set<Region>, subds: seq<Subd>, entries: seq<Entry>)
    ensures Free(claimed, Region(0, RegionSize)) ==>
              EntryFor(claimed, 0) == Reserved(0) && Region(0, RegionSize) in ClaimedAfter(claimed, 0)
    ensures (|subds| == |entries| && forall j :: 0 <= j < |subds| ==> Describes(subds[j], entries[j])) ==>
              Region(0, RegionSize) !in Released(subds)
  {
    if |subds| == |entries| && forall j :: 0 <= j < |subds| ==> Describes(subds[j], entries[j]) {
      ReleasedOfDescribed(subds, entries);
    }
  }

  /**
    A refused add at position `i` ends attach with the add's error after the
    chip's region was claimed, when it was free; no subdevice records that
    region, so detach cannot give it back.
  */
  lemma RefusedAddKeepsRegion(err: int, claimed: set<Region>, addrs: seq<nat>, alloc: seq<bool>, add: seq<int>, i: nat)
    requires |alloc| == |addrs| && |add| == |addrs| && i < |addrs|
    requires forall j :: 0 <= j < i ==> alloc[j] && add[j] >= 0
    requires alloc[i] && add[i] < 0
    ensures var p := AttachPlan(err, claimed, addrs, alloc, add);
            var q := AttachPlan(err, claimed, addrs[..i], alloc[..i], add[..i]);
            var r := Region(addrs[i], RegionSize);
            && p.err == add[i]
            && |p.entries| == i
            && (Free(q.claimed, r) ==> r in p.claimed && r !in ReservedRegions(p.entries))
  {
    var p := AttachPlan(err, claimed, addrs, alloc, add);
    var q := AttachPlan(err, claimed, addrs[..i], alloc[..i], add[..i]);
    var r := Region(addrs[i], RegionSize);
    RefusedAddPlan(err, claimed, addrs, alloc, add, i);
    AttachPlanClaims(err, claimed, addrs[..i], alloc[..i], add[..i]);
    if Free(q.claimed, r) {
      assert Overlap(r, r);
      assert r !in q.claimed;
    }
  }
}
