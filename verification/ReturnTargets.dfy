/** The run-time check of a return address against the flattened return-target tables. */
module ReturnTargets {
  import opened Options
  import opened ClosureModel
  import opened ClosureBounds
  import opened ClosureSoundness

  /** One row of the index: where a return instruction's targets start, and how many there are. */
  datatype Slice = Slice(offset: nat, count: nat)

  predicate Ascending(s: seq<int>) {
    forall i, j :: 0 <= i < j < |s| ==> s[i] < s[j]
  }

  /** What the generator emits: every slice lies in the table and is strictly ascending. */
  predicate WellFormed(meta: seq<Slice>, targets: seq<int>) {
    forall k :: 0 <= k < |meta| ==> meta[k].offset + meta[k].count <= |targets|
                                    && Ascending(SliceOf(meta, targets, k))
  }

  function SliceOf(meta: seq<Slice>, targets: seq<int>, id: int): seq<int>
    requires 0 <= id < |meta|
  {
    if meta[id].offset + meta[id].count <= |targets|
    then targets[meta[id].offset..meta[id].offset + meta[id].count] else []
  }

  method ReturnAllowed(meta: seq<Slice>, targets: seq<int>, id: nat, target: int) returns (ok: bool)
    requires WellFormed(meta, targets)
    ensures ok <==> id < |meta| && target in SliceOf(meta, targets, id)
  {
    if id >= |meta| { return false; }
    ghost var slice := SliceOf(meta, targets, id);
    var first := meta[id].offset;
    var lo, hi := first, first + meta[id].count;
    assert |slice| == meta[id].count && forall i :: 0 <= i < |slice| ==> slice[i] == targets[first + i];
    assert Ascending(slice);
    hide SliceOf, WellFormed;
    while lo < hi
      invariant first <= lo <= hi <= first + meta[id].count
      invariant forall i :: 0 <= i < lo - first ==> slice[i] < target
      invariant forall i :: hi - first <= i < |slice| ==> slice[i] >= target
    {
      var mid := lo + (hi - lo) / 2;
      assert slice[mid - first] == targets[first + (mid - first)];
      if targets[mid] < target { lo := mid + 1; } else { hi := mid; }
    }
    ok := lo < first + meta[id].count && targets[lo] == target;
    if lo < first + meta[id].count {
      assert slice[lo - first] == targets[first + (lo - first)];
    }
  }

  // ----- joined with the analysis -----

  /** Bank above sixteen bits of program counter. */
  function Encode(s: Site): (r: int)
    ensures s.pc < 0x10000 ==> r / 0x10000 == s.bank && r % 0x10000 == s.pc
  {
    s.bank * 0x10000 + s.pc
  }

  /** The table holds, for each return instruction, its return-target set. */
  ghost predicate Emitted(sites: set<ReturnSite>, at: Site, kind: Kind, slice: seq<int>) {
    forall v :: v in slice <==> exists s :: s in sites && s.at == at && s.kind == kind && Encode(s.target) == v
  }

  /** No run of the machine is ever refused by the check. */
  lemma ReturnsAreAllowed(p: Program, hw: Hardware, t: Table, run: seq<Config>, events: seq<Event>, n: nat,
                          i: Inst, meta: seq<Slice>, targets: seq<int>, id: nat)
    requires Closed(p, t) && FrontierFree(p, t) && Suits(p, hw, t) && SitesSuit(p, hw, t)
    requires IsRun(p, hw, run, events) && n < |events| && events[n].Execute?
    requires p.decode(RegsKey(run[n].cpu)) == Some(i) && (i.mnemonic.RTS? || i.mnemonic.RTL?)
    requires id < |meta|
    requires Emitted(ReturnSites(p, t), Site(run[n].cpu.pbr, run[n].cpu.pc),
                     if i.mnemonic.RTS? then RtsKind else RtlKind, SliceOf(meta, targets, id))
    ensures Encode(Site(run[n + 1].cpu.pbr, run[n + 1].cpu.pc)) in SliceOf(meta, targets, id)
  {
    ReturnAuthority(p, hw, t, run, events, n, i);
  }

  /** Sixteen-bit program counters encode without collisions. */
  lemma EncodeInjective(a: Site, b: Site)
    requires a.pc < 0x10000 && b.pc < 0x10000 && Encode(a) == Encode(b)
    ensures a == b
  {
  }

  /** The check passes exactly the return sites: over the result of the analysis on a program of the
      24-bit space, an address is in the slice of an instruction only if it is one of its targets. */
  lemma AllowedIsSite(p: Program, t: Table, at: Site, kind: Kind, meta: seq<Slice>, targets: seq<int>, id: nat,
                      target: Site)
    requires LeastClosed(p, t) && InRange(p) && target.pc < 0x10000
    requires id < |meta| && Emitted(ReturnSites(p, t), at, kind, SliceOf(meta, targets, id))
    ensures Encode(target) in SliceOf(meta, targets, id) <==> ReturnSite(at, kind, target) in ReturnSites(p, t)
  {
    hide Transfer, WideClosed, InRange;
    SpaceCloses(p);
    assert Within(t, Space());
    forall s | s in ReturnSites(p, t) && s.at == at && s.kind == kind && Encode(s.target) == Encode(target)
      ensures s == ReturnSite(at, kind, target)
    {
      var k :| k in t.calls && s.target == Site(k.cont.bank, k.cont.pc);
      assert k in Space().calls;
      EncodeInjective(s.target, target);
    }
  }
}
