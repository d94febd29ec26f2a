/**
 Patching command streams: submit_reloc of msm/msm_gem_submit.c and the loop over the commands in
 msm_ioctl_gem_submit.
 */
module Reloc {
  import opened RelocWords

  /** Where in its buffer, in bytes, the address of buffer `idx` goes, and how it is computed. */
  datatype Relocation = Relocation(submitOffset: nat, or: bv32, shift: Shift, idx: nat, relocOffset: bv64)

  /** A 32-bit number of bytes, in words. */
  type Words = x: nat | x < 0x4000_0000

  /** The stream in buffer `buf`, its place there as submit_lookup_cmds leaves it, and its relocations. */
  datatype Command = Command(buf: nat, offset: Words, size: Words, relocs: seq<Relocation>)

  /** The address of each buffer, and whether it is the one that userspace presumed. */
  datatype Addresses = Addresses(iova: seq<bv64>, valid: seq<bool>)

  /** The address that a relocation is about. */
  function Target(r: Relocation, iova: bv64): bv64 {
    Sum(iova, r.relocOffset)
  }

  /** The word that a relocation puts into the stream for a given address. */
  function Encode(r: Relocation, iova: bv64): bv32 {
    Stored(Target(r, iova), r.shift, r.or)
  }

  /** The bits to be or-ed in are there, whatever the address and the shift. */
  lemma OrBitsAreSet(r: Relocation, iova: bv64)
    ensures Encode(r, iova) & r.or == r.or
  {
    OrStays(Target(r, iova), r.shift, r.or);
  }

  function Slot(r: Relocation): nat {
    r.submitOffset / 4
  }

  // ---------------------------------------------------------------- patching and building

  predicate Fits(words: seq<bv32>, relocs: seq<Relocation>, bufs: nat) {
    forall k :: 0 <= k < |relocs| ==> Slot(relocs[k]) < |words| && relocs[k].idx < bufs
  }

  /** Every slot written with the address given for its buffer. */
  function Build(words: seq<bv32>, relocs: seq<Relocation>, iova: seq<bv64>): seq<bv32>
    requires Fits(words, relocs, |iova|)
    decreases |relocs|
  {
    if relocs == [] then words
    else Build(words[Slot(relocs[0]) := Encode(relocs[0], iova[relocs[0].idx])], relocs[1..], iova)
  }

  /** Slots of buffers whose presumed address was right are skipped. */
  function Patch(words: seq<bv32>, relocs: seq<Relocation>, a: Addresses): (r: seq<bv32>)
    requires Fits(words, relocs, |a.iova|) && |a.valid| == |a.iova|
    ensures |r| == |words|
    decreases |relocs|
  {
    if relocs == [] then words
    else if a.valid[relocs[0].idx] then Patch(words, relocs[1..], a)
    else Patch(words[Slot(relocs[0]) := Encode(relocs[0], a.iova[relocs[0].idx])], relocs[1..], a)
  }

  /** Userspace wrote its presumed addresses into the stream. */
  ghost predicate Encoded(words: seq<bv32>, relocs: seq<Relocation>, presumed: seq<bv64>) {
    forall k :: 0 <= k < |relocs| ==>
      && Slot(relocs[k]) < |words| && relocs[k].idx < |presumed|
      && words[Slot(relocs[k])] == Encode(relocs[k], presumed[relocs[k].idx])
  }

  ghost predicate DistinctSlots(relocs: seq<Relocation>) {
    forall j, k :: 0 <= j < k < |relocs| ==> Slot(relocs[j]) != Slot(relocs[k])
  }

  /** A buffer is only called valid if its presumed address is its address. */
  ghost predicate Honest(presumed: seq<bv64>, a: Addresses) {
    && |presumed| == |a.iova| == |a.valid|
    && forall i :: 0 <= i < |presumed| && a.valid[i] ==> presumed[i] == a.iova[i]
  }

  /** Patching is rebuilding: skipping the slots with valid addresses changes nothing. */
  lemma {:induction false} PatchIsBuild(words: seq<bv32>, relocs: seq<Relocation>, presumed: seq<bv64>, a: Addresses)
    requires Honest(presumed, a) && Fits(words, relocs, |a.iova|)
    requires Encoded(words, relocs, presumed) && DistinctSlots(relocs)
    ensures Patch(words, relocs, a) == Build(words, relocs, a.iova)
    decreases |relocs|
  {
    if relocs != [] {
      var r, rest := relocs[0], relocs[1..];
      var written := words[Slot(r) := Encode(r, a.iova[r.idx])];
      forall k | 0 <= k < |rest| ensures rest[k] == relocs[k + 1] && Slot(rest[k]) != Slot(r) {
      }
      if a.valid[r.idx] {
        assert written == words;
      }
      PatchIsBuild(written, rest, presumed, a);
    }
  }

  /** What a built stream looks like: its slots hold the addresses, all else is untouched. */
  lemma {:induction false} BuiltStream(words: seq<bv32>, relocs: seq<Relocation>, iova: seq<bv64>)
    requires Fits(words, relocs, |iova|) && DistinctSlots(relocs)
    ensures |Build(words, relocs, iova)| == |words| && Encoded(Build(words, relocs, iova), relocs, iova)
    ensures forall p :: 0 <= p < |words| && (forall k :: 0 <= k < |relocs| ==> Slot(relocs[k]) != p) ==>
              Build(words, relocs, iova)[p] == words[p]
    decreases |relocs|
  {
    if relocs != [] {
      var r, rest := relocs[0], relocs[1..];
      var written := words[Slot(r) := Encode(r, iova[r.idx])];
      assert forall k :: 0 <= k < |rest| ==> rest[k] == relocs[k + 1];
      BuiltStream(written, rest, iova);
      var built := Build(words, relocs, iova);
      assert built[Slot(r)] == Encode(r, iova[r.idx]);
      forall k | 0 <= k < |relocs| ensures built[Slot(relocs[k])] == Encode(relocs[k], iova[relocs[k].idx]) {
        if k > 0 {
          assert rest[k - 1] == relocs[k];
        }
      }
    }
  }

  /** A low and a high half in a built stream put together are the address of their buffer. */
  lemma BuiltAddress(words: seq<bv32>, relocs: seq<Relocation>, iova: seq<bv64>, lo: nat, hi: nat)
    requires Fits(words, relocs, |iova|) && DistinctSlots(relocs) && lo < |relocs| && hi < |relocs|
    requires relocs[lo].shift == Left(0) && relocs[hi].shift == Right(32) && relocs[lo].or == relocs[hi].or == 0
    requires relocs[lo].idx == relocs[hi].idx && relocs[lo].relocOffset == relocs[hi].relocOffset
    ensures |Build(words, relocs, iova)| == |words|
    ensures var built := Build(words, relocs, iova);
            TwoStored(built[Slot(relocs[lo])], built[Slot(relocs[hi])]) == Target(relocs[lo], iova[relocs[lo].idx])
  {
    BuiltStream(words, relocs, iova);
    var built, a := Build(words, relocs, iova), Target(relocs[lo], iova[relocs[lo].idx]);
    SameTarget(relocs[lo], relocs[hi], iova[relocs[lo].idx]);
    TwoHalves(relocs[lo], relocs[hi], iova[relocs[lo].idx], a, built[Slot(relocs[lo])], built[Slot(relocs[hi])]);
  }

  lemma TwoHalves(lo: Relocation, hi: Relocation, iova: bv64, a: bv64, low: bv32, high: bv32)
    requires lo.shift == Left(0) && hi.shift == Right(32) && lo.or == hi.or == 0
    requires a == Target(lo, iova) == Target(hi, iova) && low == Encode(lo, iova) && high == Encode(hi, iova)
    ensures TwoStored(low, high) == a
  {
    EncodesTarget(lo, iova, a, Left(0));
    EncodesTarget(hi, iova, a, Right(32));
    HalvesOf(a, low, high);
  }

  lemma SameTarget(lo: Relocation, hi: Relocation, iova: bv64)
    requires lo.relocOffset == hi.relocOffset
    ensures Target(lo, iova) == Target(hi, iova)
  {
  }

  lemma TargetIsSum(r: Relocation, iova: bv64, a: bv64)
    requires a == iova + r.relocOffset
    ensures Target(r, iova) == a
  {
    SumIs(iova, r.relocOffset, a);
  }

  lemma EncodesTarget(r: Relocation, iova: bv64, a: bv64, s: Shift)
    requires a == Target(r, iova) && r.shift == s && r.or == 0
    ensures Encode(r, iova) == Stored(a, s, 0)
  {
  }

  lemma HalvesOf(a: bv64, low: bv32, high: bv32)
    requires low == Stored(a, Left(0), 0) && high == Stored(a, Right(32), 0)
    ensures TwoStored(low, high) == a
  {
    StoredHalvesMakeAddress(a);
  }

  lemma PlainAddresses()
    ensures Encode(Relocation(0, 0, Left(0), 0, 0), 5) == 5 && Encode(Relocation(0, 0, Left(0), 1, 0), 0) == 0
  {
    PlainWords();
  }

  /** Two relocations of one slot, the second skipped: patching leaves the first address there, building
      the second. */
  lemma OneSlotForTwo(words: seq<bv32>, first: Relocation, second: Relocation, a: Addresses)
    requires |a.valid| == |a.iova| && first.idx < |a.iova| && second.idx < |a.iova|
    requires !a.valid[first.idx] && a.valid[second.idx] && Slot(first) == Slot(second) < |words|
    ensures Fits(words, [first, second], |a.iova|)
    ensures Patch(words, [first, second], a)[Slot(first)] == Encode(first, a.iova[first.idx])
    ensures |Build(words, [first, second], a.iova)| == |words|
    ensures Build(words, [first, second], a.iova)[Slot(first)] == Encode(second, a.iova[second.idx])
  {
    var written := words[Slot(first) := Encode(first, a.iova[first.idx])];
    assert [first, second][1..] == [second] && [second][1..] == [];
    assert Patch(words, [first, second], a) == Patch(written, [second], a) == written;
    var rewritten := written[Slot(second) := Encode(second, a.iova[second.idx])];
    assert Build(written, [second], a.iova) == Build(rewritten, [], a.iova) == rewritten;
    assert Build(words, [first, second], a.iova) == Build(written, [second], a.iova);
  }

  /** So the order of writing is lost, for instance with these. */
  lemma SharedSlotIsNotRebuilt()
    ensures var first, second := Relocation(0, 0, Left(0), 0, 0), Relocation(0, 0, Left(0), 1, 0);
            var words, presumed, a := [0], [0, 0], Addresses([5, 0], [false, true]);
            && Honest(presumed, a) && Encoded(words, [first, second], presumed)
            && Fits(words, [first, second], 2)
            && Patch(words, [first, second], a) != Build(words, [first, second], a.iova)
  {
    var first, second := Relocation(0, 0, Left(0), 0, 0), Relocation(0, 0, Left(0), 1, 0);
    PlainAddresses();
    OneSlotForTwo([0], first, second, Addresses([5, 0], [false, true]));
  }

  // ---------------------------------------------------------------- one command

  /** The checks of submit_reloc: aligned, inside the buffer, not before the last slot written. */
  predicate Accepted(relocs: seq<Relocation>, words: nat, last: nat, a: Addresses)
    requires |a.valid| == |a.iova|
  {
    relocs == [] ||
    (var r := relocs[0];
     && r.submitOffset % 4 == 0 && last <= Slot(r) < words && r.idx < |a.iova|
     && Accepted(relocs[1..], words, if a.valid[r.idx] then last else Slot(r), a))
  }

  lemma {:induction false} AcceptedFits(words: seq<bv32>, relocs: seq<Relocation>, last: nat, a: Addresses)
    requires |a.valid| == |a.iova| && Accepted(relocs, |words|, last, a)
    ensures Fits(words, relocs, |a.iova|)
    decreases |relocs|
  {
    if relocs != [] {
      var r := relocs[0];
      AcceptedFits(words, relocs[1..], if a.valid[r.idx] then last else Slot(r), a);
      assert forall k :: 1 <= k < |relocs| ==> relocs[k] == relocs[1..][k - 1];
    }
  }

  /** submit_reloc. `mapped` is what mapping the buffer into the kernel comes to. It succeeds exactly if
      there is nothing to patch, or the buffer can be mapped and all checks pass; and then the buffer
      is patched. */
  method SubmitReloc(ptr: array<bv32>, relocs: seq<Relocation>, a: Addresses, mapped: bool) returns (ok: bool)
    requires |a.valid| == |a.iova|
    modifies ptr
    ensures ok <==> relocs == [] || (mapped && Accepted(relocs, ptr.Length, 0, a))
    ensures ok ==> Fits(old(ptr[..]), relocs, |a.iova|) && ptr[..] == Patch(old(ptr[..]), relocs, a)
  {
    if relocs == [] {
      return true;
    }
    if !mapped {
      return false;
    }
    var i, last := 0, 0;
    assert relocs[0..] == relocs;
    if Accepted(relocs, ptr.Length, 0, a) {
      AcceptedFits(ptr[..], relocs, 0, a);
    }
    while i < |relocs|
      invariant 0 <= i <= |relocs|
      invariant Accepted(relocs, ptr.Length, 0, a) <==> Accepted(relocs[i..], ptr.Length, last, a)
      invariant Accepted(relocs[i..], ptr.Length, last, a) ==>
                  && Fits(old(ptr[..]), relocs, |a.iova|) && Fits(ptr[..], relocs[i..], |a.iova|)
                  && Patch(ptr[..], relocs[i..], a) == Patch(old(ptr[..]), relocs, a)
    {
      var r := relocs[i];
      assert relocs[i..][0] == r && relocs[i..][1..] == relocs[i + 1..];
      if r.submitOffset % 4 != 0 {
        return false;
      }
      var off := r.submitOffset / 4;
      if off >= ptr.Length || off < last || r.idx >= |a.iova| {
        return false;
      }
      if !a.valid[r.idx] {
        ghost var before := ptr[..];
        ptr[off] := Encode(r, a.iova[r.idx]);
        last := off;
        assert ptr[..] == before[Slot(r) := Encode(r, a.iova[r.idx])];
      }
      i := i + 1;
    }
    return true;
  }

  // ---------------------------------------------------------------- all commands

  /** The relocations of the first `n` commands that concern buffer `b`, in order. */
  function RelocsOf(cmds: seq<Command>, b: nat): seq<Relocation> {
    if cmds == [] then []
    else
      var rest := RelocsOf(cmds[..|cmds| - 1], b);
      if cmds[|cmds| - 1].buf == b then rest + cmds[|cmds| - 1].relocs else rest
  }

  lemma {:induction false} PatchMore(words: seq<bv32>, a: Addresses, xs: seq<Relocation>, ys: seq<Relocation>)
    requires |a.valid| == |a.iova| && Fits(words, xs, |a.iova|) && Fits(words, ys, |a.iova|)
    ensures Fits(words, xs + ys, |a.iova|)
    ensures Patch(Patch(words, xs, a), ys, a) == Patch(words, xs + ys, a)
    decreases |xs|
  {
    if xs == [] {
      assert xs + ys == ys;
    } else {
      var r := xs[0];
      var words' := if a.valid[r.idx] then words else words[Slot(r) := Encode(r, a.iova[r.idx])];
      PatchMore(words', a, xs[1..], ys);
      assert (xs + ys)[1..] == xs[1..] + ys;
      assert forall k :: 0 <= k < |xs + ys| ==> (xs + ys)[k] == if k < |xs| then xs[k] else ys[k - |xs|];
    }
  }

  lemma OneMoreCommand(cmds: seq<Command>, i: nat)
    requires i < |cmds|
    ensures forall b :: RelocsOf(cmds[..i + 1], b) ==
              if cmds[i].buf == b then RelocsOf(cmds[..i], b) + cmds[i].relocs else RelocsOf(cmds[..i], b)
  {
    assert cmds[..i + 1][..i] == cmds[..i];
  }

  /** The stream lies in its buffer, and its relocations can be applied, or need not be. */
  predicate CommandAccepted(cmd: Command, bufs: seq<array<bv32>>, a: Addresses, allValid: bool, mapped: bool)
    requires |a.valid| == |a.iova|
  {
    && cmd.buf < |bufs| && 0 < cmd.size && cmd.offset + cmd.size <= bufs[cmd.buf].Length
    && (allValid || cmd.relocs == [] || (mapped && Accepted(cmd.relocs, bufs[cmd.buf].Length, 0, a)))
  }

  /** The first `n` commands are accepted. */
  ghost predicate AllAccepted(cmds: seq<Command>, n: nat, bufs: seq<array<bv32>>, a: Addresses, allValid: bool,
                              mapped: seq<bool>)
    requires |a.valid| == |a.iova| && n <= |cmds| == |mapped|
  {
    forall i :: 0 <= i < n ==> CommandAccepted(cmds[i], bufs, a, allValid, mapped[i])
  }

  /** One turn of the loop over the commands. */
  method PatchCommand(bufs: seq<array<bv32>>, cmd: Command, a: Addresses, allValid: bool, mapped: bool)
    returns (ok: bool)
    requires |a.valid| == |a.iova| == |bufs|
    requires forall i, j :: 0 <= i < j < |bufs| ==> bufs[i] != bufs[j]
    modifies bufs
    ensures ok <==> CommandAccepted(cmd, bufs, a, allValid, mapped)
    ensures allValid ==> Contents(bufs) == old(Contents(bufs))
    ensures ok && !allValid ==>
              && var words := old(Contents(bufs))[cmd.buf];
                 Fits(words, cmd.relocs, |bufs|)
                 && Contents(bufs) == old(Contents(bufs))[cmd.buf := Patch(words, cmd.relocs, a)]
  {
    if cmd.buf >= |bufs| {
      return false;
    }
    ok := StreamFits(cmd, bufs[cmd.buf].Length);
    if ok && !allValid {
      ok := SubmitReloc(bufs[cmd.buf], cmd.relocs, a, mapped);
    }
  }

  ghost function Contents(bufs: seq<array<bv32>>): (r: seq<seq<bv32>>)
    reads bufs
    ensures |r| == |bufs| && forall b :: 0 <= b < |bufs| ==> r[b] == bufs[b][..]
  {
    seq(|bufs|, b requires 0 <= b < |bufs| reads bufs => bufs[b][..])
  }

  /** Every buffer is patched with all its relocations. */
  ghost predicate Patched(was: seq<seq<bv32>>, now: seq<seq<bv32>>, cmds: seq<Command>, a: Addresses)
    requires |a.valid| == |a.iova|
  {
    && |was| == |now| == |a.iova|
    && forall b :: 0 <= b < |now| ==>
         Fits(was[b], RelocsOf(cmds, b), |now|) && now[b] == Patch(was[b], RelocsOf(cmds, b), a)
  }

  lemma OneMorePatched(was: seq<seq<bv32>>, now: seq<seq<bv32>>, now': seq<seq<bv32>>, cmds: seq<Command>, i: nat,
                       a: Addresses)
    requires |a.valid| == |a.iova| && i < |cmds| && cmds[i].buf < |now| && Patched(was, now, cmds[..i], a)
    requires Fits(now[cmds[i].buf], cmds[i].relocs, |now|)
    requires now' == now[cmds[i].buf := Patch(now[cmds[i].buf], cmds[i].relocs, a)]
    ensures Patched(was, now', cmds[..i + 1], a)
  {
    OneMoreCommand(cmds, i);
    forall b | 0 <= b < |now|
      ensures Fits(was[b], RelocsOf(cmds[..i + 1], b), |now|)
      ensures now'[b] == Patch(was[b], RelocsOf(cmds[..i + 1], b), a)
    {
      if b == cmds[i].buf {
        PatchMore(was[b], a, RelocsOf(cmds[..i], b), cmds[i].relocs);
      }
    }
  }

  /** The loop over the commands in msm_ioctl_gem_submit. `allValid` is submit->valid, and `mapped[i]`
      says whether the buffer of command `i` can be mapped into the kernel. It succeeds exactly if all
      commands are accepted, and then every buffer is patched with all its relocations. */
  method PatchCommands(bufs: seq<array<bv32>>, cmds: seq<Command>, a: Addresses, allValid: bool, mapped: seq<bool>)
    returns (ok: bool)
    requires |a.valid| == |a.iova| == |bufs| && |mapped| == |cmds|
    requires forall i, j :: 0 <= i < j < |bufs| ==> bufs[i] != bufs[j]
    requires allValid <==> forall i :: 0 <= i < |a.valid| ==> a.valid[i]
    modifies bufs
    ensures ok <==> AllAccepted(cmds, |cmds|, bufs, a, allValid, mapped)
    ensures ok && !allValid ==> Patched(old(Contents(bufs)), Contents(bufs), cmds, a)
    ensures allValid ==> Contents(bufs) == old(Contents(bufs))
  {
    ghost var was := Contents(bufs);
    assert cmds[..0] == [];
    for i := 0 to |cmds|
      invariant AllAccepted(cmds, i, bufs, a, allValid, mapped)
      invariant if allValid then Contents(bufs) == was else Patched(was, Contents(bufs), cmds[..i], a)
    {
      ghost var now := Contents(bufs);
      ok := PatchCommand(bufs, cmds[i], a, allValid, mapped[i]);
      if !ok {
        return;
      }
      if !allValid {
        OneMorePatched(was, now, Contents(bufs), cmds, i, a);
      }
    }
    assert cmds[..|cmds|] == cmds;
    return true;
  }

  /** The end of the stream is computed in 32 bits, which is enough. */
  method StreamFits(cmd: Command, words: nat) returns (fits: bool)
    ensures fits <==> 0 < cmd.size && cmd.offset + cmd.size <= words
  {
    fits := cmd.size != 0 && (cmd.size + cmd.offset) % 0x1_0000_0000 <= words;
  }

  lemma {:induction false} AllValidIsBuild(words: seq<bv32>, relocs: seq<Relocation>, presumed: seq<bv64>, a: Addresses)
    requires Honest(presumed, a) && Fits(words, relocs, |a.iova|) && Encoded(words, relocs, presumed)
    requires forall i :: 0 <= i < |a.valid| ==> a.valid[i]
    ensures Build(words, relocs, a.iova) == words
    decreases |relocs|
  {
    if relocs != [] {
      var r := relocs[0];
      assert words[Slot(r) := Encode(r, a.iova[r.idx])] == words;
      assert forall k :: 0 <= k < |relocs| - 1 ==> relocs[1..][k] == relocs[k + 1];
      AllValidIsBuild(words, relocs[1..], presumed, a);
    }
  }

  /** The address that the kernel compares with: back-off may have zeroed it. */
  ghost predicate AfterBackOff(presumed: seq<bv64>, compared: seq<bv64>) {
    |compared| == |presumed| && forall i :: 0 <= i < |presumed| ==> compared[i] == presumed[i] || compared[i] == 0
  }

  /** No mapping is at address 0, so a zeroed address never passes for valid. */
  lemma ComparedHonestly(presumed: seq<bv64>, compared: seq<bv64>, a: Addresses)
    requires AfterBackOff(presumed, compared) && |a.iova| == |a.valid| == |presumed|
    requires forall i :: 0 <= i < |a.iova| ==> a.iova[i] != 0 && (a.valid[i] <==> compared[i] == a.iova[i])
    ensures Honest(presumed, a)
  {
  }

  /** After a successful submit every command buffer is what it would be, had it been built with the
      actual addresses, whichever slots were patched, skipped, or skipped all together. */
  method PatchAsIfBuilt(bufs: seq<array<bv32>>, cmds: seq<Command>, ghost presumed: seq<bv64>,
                        ghost compared: seq<bv64>, a: Addresses, allValid: bool, mapped: seq<bool>)
    returns (ok: bool)
    requires |a.valid| == |a.iova| == |bufs| == |presumed| && |mapped| == |cmds| && AfterBackOff(presumed, compared)
    requires forall i :: 0 <= i < |a.iova| ==> a.iova[i] != 0 && (a.valid[i] <==> compared[i] == a.iova[i])
    requires allValid <==> forall i :: 0 <= i < |a.valid| ==> a.valid[i]
    requires forall i, j :: 0 <= i < j < |bufs| ==> bufs[i] != bufs[j]
    requires forall b :: 0 <= b < |bufs| ==>
               Encoded(bufs[b][..], RelocsOf(cmds, b), presumed) && DistinctSlots(RelocsOf(cmds, b))
    modifies bufs
    ensures ok ==> forall b :: 0 <= b < |bufs| ==>
              && Fits(old(bufs[b][..]), RelocsOf(cmds, b), |a.iova|)
              && bufs[b][..] == Build(old(bufs[b][..]), RelocsOf(cmds, b), a.iova)
  {
    ComparedHonestly(presumed, compared, a);
    ok := PatchCommands(bufs, cmds, a, allValid, mapped);
    if ok {
      ghost var was := old(Contents(bufs));
      forall b | 0 <= b < |bufs|
        ensures Fits(was[b], RelocsOf(cmds, b), |a.iova|) && bufs[b][..] == Build(was[b], RelocsOf(cmds, b), a.iova)
      {
        if allValid {
          assert bufs[b][..] == Contents(bufs)[b];
          AllValidIsBuild(was[b], RelocsOf(cmds, b), presumed, a);
        } else {
          PatchIsBuild(was[b], RelocsOf(cmds, b), presumed, a);
        }
      }
    }
  }
}
