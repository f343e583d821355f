// Facts about cutting a chain of choice points with increasing addresses.

module Chains {
  import opened CodeGen
  import opened Machine

  predicate Sorted(chain: seq<Choice>) {
    && (forall i :: 0 <= i < |chain| ==> chain[i].addr > 0)
    && (forall i, j :: 0 <= i < j < |chain| ==> chain[i].addr < chain[j].addr)
  }

  /** `l` is sorted and newer than `floor`. */
  predicate Above(l: seq<Choice>, floor: nat) {
    Sorted(l) && forall i :: 0 <= i < |l| ==> l[i].addr > floor
  }

  lemma SortedJoin(kc: seq<Choice>, l: seq<Choice>, floor: nat)
    requires Sorted(kc) && Top(kc) <= floor && Above(l, floor)
    ensures Sorted(kc + l)
    ensures kc != [] || l != [] ==> Top(kc + l) == if l == [] then Top(kc) else Top(l)
  {
    if kc != [] {
      assert forall i :: 0 <= i < |kc| - 1 ==> kc[i].addr < kc[|kc| - 1].addr;
    }
  }

  lemma AbovePush(l: seq<Choice>, floor: nat, addr: nat, alt: Alt)
    requires Above(l, floor) && Top(l) < addr && floor < addr
    ensures Above(l + [Choice(addr, alt)], floor)
  {
    if l != [] {
      assert forall i :: 0 <= i < |l| - 1 ==> l[i].addr < l[|l| - 1].addr;
    }
  }

  lemma AboveInit(l: seq<Choice>, floor: nat)
    requires Above(l, floor) && l != []
    ensures Above(l[..|l| - 1], floor) && Top(l[..|l| - 1]) < Top(l)
  {
    var k := l[..|l| - 1];
    if k != [] { assert k[|k| - 1] == l[|l| - 2]; }
  }

  /** Cutting to the address of a choice point in the chain keeps the chain up to it. */
  lemma {:induction false} CutToKeeps(chain: seq<Choice>, n: nat)
    requires Sorted(chain) && 0 < n <= |chain|
    ensures CutTo(chain, Top(chain[..n])) == chain[..n]
    decreases |chain|
  {
    if n == |chain| {
      assert chain[..n] == chain;
    } else {
      var init := chain[..|chain| - 1];
      assert init[..n] == chain[..n];
      assert chain[n - 1].addr < chain[|chain| - 1].addr;
      CutToKeeps(init, n);
    }
  }

  /** Looking for a parent finds the one choice point that has it. */
  lemma {:induction false} LocalCutKeeps(chain: seq<Choice>, n: nat)
    requires Sorted(chain) && 0 < n <= |chain|
    ensures LocalCutTo(chain, Top(chain[..n - 1])) == Some(chain[..n])
    decreases |chain|
  {
    var init := chain[..|chain| - 1];
    if n == |chain| {
      assert chain[..n] == chain;
    } else {
      assert init[..n] == chain[..n] && init[..n - 1] == chain[..n - 1];
      assert init[|init| - 1] == chain[|chain| - 2];
      if n > 1 { assert chain[..n - 1][n - 2] == chain[n - 2]; }
      LocalCutKeeps(init, n);
    }
  }

  lemma {:induction false} FindFinds(chain: seq<Choice>, n: nat)
    requires Sorted(chain) && n < |chain|
    ensures Find(chain, chain[n].addr) == n
    decreases |chain|
  {
    if n < |chain| - 1 {
      FindFinds(chain[..|chain| - 1], n);
      assert chain[n].addr < chain[|chain| - 1].addr;
    }
  }

  /** The first C_SOFTCUT for a choice point takes exactly that one out of the chain. */
  lemma Unlinks(w: World, v: nat, base: seq<Choice>, ch: Choice, newer: seq<Choice>)
    requires w.chain == base + [ch] + newer && Sorted(w.chain) && v in w.marks && w.marks[v] == ch.addr
    ensures SoftCut(w, v) == World(base + newer, w.marks[v := 0 - Top(base)], w.dead[ch.addr := Top(base)], w.next,
            w.out)
  {
    hide Find;
    var k := |base|;
    assert w.chain[k] == ch && w.chain[..k] == base && w.chain[k + 1..] == newer;
    FindFinds(w.chain, k);
  }
}
