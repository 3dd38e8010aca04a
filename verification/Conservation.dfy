/**
 Every page of RAM has one place: on the free list, in one process, or with the kernel.
 */
module Conservation {
  import opened Riscv
  import opened PageTable
  import opened Kalloc
  import opened Vm
  import opened Space
  import opened Proc
  import opened Processes

  /** Page p is a table or a user page of the tree under root, as memory has it. */
  ghost predicate InTree(mem: Mem, root: nat, p: nat) {
    || p == root
    || (exists a :: p != 0 && Child(mem, root, a) == p)
    || (exists a, b :: p != 0 && LeafTable(mem, root, a, b) == p)
    || (exists v: nat :: v < USYS_VPN && Lookup(mem, root, v).f.v && Lookup(mem, root, v).ppn == p)
  }

  lemma TreeIsMine(mem: Mem, own: Owners, root: nat, p: nat)
    requires PtInv(mem, own) && IsRoot(own, root)
    ensures InTree(mem, root, p) <==> Mine(own, p, root)
  {
    if Mine(own, p, root) {
      MineInTree(mem, own, root, p);
    } else if p == root {
    } else if a :| p != 0 && Child(mem, root, a) == p {
      Tables(mem, own, root, a, 0);
    } else if a, b :| p != 0 && LeafTable(mem, root, a, b) == p {
      Tables(mem, own, root, a, b);
    } else if v: nat :| v < USYS_VPN && Lookup(mem, root, v).f.v && Lookup(mem, root, v).ppn == p {
      UserLeaf(mem, own, root, v);
    }
  }

  lemma MineInTree(mem: Mem, own: Owners, root: nat, p: nat)
    requires PtInv(mem, own) && IsRoot(own, root) && Mine(own, p, root)
    ensures InTree(mem, root, p)
  {
    Reached(mem, own, p);
    assert NodeOk(mem, own, p);
    if own[p].path.P0? {
      var path := own[p].path;
      SplitVpn(path.a, path.b, path.c);
      TopPages(Vpn(path.a, path.b, path.c));
      assert Lookup(mem, root, Vpn(path.a, path.b, path.c)).f.v;
    }
  }

  /** The pages of RAM, by what the machine itself says of them; the rest is the kernel's. */
  datatype Role = OnFreeList | Trapframe(i: nat) | Shared(i: nat) | TreePage(i: nat)

  ghost predicate HasRole(mem: Mem, freelist: nat, procs: seq<Proc>, p: nat, role: Role) {
    match role
    case OnFreeList => p in Chain(mem, freelist, TOP_PAGE - LOW_PAGE)
    case Trapframe(i) => i < |procs| && procs[i].trapframe == p
    case Shared(i) => i < |procs| && procs[i].usyscall == p
    case TreePage(i) => i < |procs| && procs[i].pagetable != 0 && InTree(mem, procs[i].pagetable, p)
  }

  /** The role that goes with an owner. */
  ghost predicate RoleOf(own: Owners, procs: seq<Proc>, p: nat, role: Role)
    requires p in own
  {
    match role
    case OnFreeList => own[p].Free?
    case Trapframe(i) => own[p] == TrapPage(i)
    case Shared(i) => own[p] == SysPage(i)
    case TreePage(i) => i < |procs| && procs[i].pagetable != 0 && Mine(own, p, procs[i].pagetable)
  }

  /** What the machine says of a page is what the invariant calls its owner. */
  lemma RoleIsOwner(k: Kernel, p: nat, role: Role)
    requires k.Valid() && InRam(k.m.end, p)
    ensures HasRole(k.m.mem, k.m.freelist, k.procs, p, role) <==> RoleOf(k.m.own, k.procs, p, role)
  {
    hide PtInv, SlotInv, Lookup, Chain, InTree, FreeOk;
    var mem, own, procs := k.m.mem, k.m.own, k.procs;
    ManagedPage(k.m.end, mem, k.m.freelist, k.m.free, own, p);
    assert Accounted(own, procs, p);
    match role
    case OnFreeList =>
    case TreePage(i) =>
      if i < |procs| && procs[i].pagetable != 0 {
        FactsOf(mem, own, procs, k.nextpid, k.tramp, i);
        TreeIsMine(mem, own, procs[i].pagetable, p);
      }
    case Trapframe(i) =>
      if i < |procs| {
        SlotPages(mem, own, procs, i, k.nextpid, k.tramp);
      }
    case Shared(i) =>
      if i < |procs| {
        SlotPages(mem, own, procs, i, k.nextpid, k.tramp);
      }
  }

  /** A page that the allocator manages is on its list exactly when it is free. */
  lemma ManagedPage(end: nat, mem: Mem, head: nat, free: seq<nat>, own: Owners, p: nat)
    requires FreeOk(end, mem, head, free, own) && InRam(end, p)
    ensures p in own && p != 0
    ensures p in Chain(mem, head, TOP_PAGE - LOW_PAGE) <==> own[p].Free?
  {
    FewFree(end, mem, head, free, own);
    ChainIsFree(end, mem, head, free, own, 0, TOP_PAGE - LOW_PAGE);
    assert free[0..] == free;
  }

  /** The role that a page's owner stands for. */
  ghost function OwnRole(own: Owners, p: nat): Role
    requires p in own
  {
    match own[p]
    case TrapPage(i) => Trapframe(i)
    case SysPage(i) => Shared(i)
    case Node(r, _, _) => if r in own && own[r].Node? then TreePage(own[r].parent) else OnFreeList
    case _ => OnFreeList
  }

  lemma OneRole(mem: Mem, own: Owners, procs: seq<Proc>, p: nat, nextpid: nat, tramp: nat)
    requires PtInv(mem, own) && ProcsInv(mem, own, procs, nextpid, tramp)
    requires p in own && !own[p].Kern?
    ensures forall role :: RoleOf(own, procs, p, role) <==> role == OwnRole(own, p)
  {
    assert Accounted(own, procs, p);
    RootsSelf(mem, own);
    if own[p].Node? {
      assert NodeOk(mem, own, p);
      assert Accounted(own, procs, own[p].root);
    }
    hide PtInv, SlotInv, Lookup;
    forall role ensures RoleOf(own, procs, p, role) <==> role == OwnRole(own, p) {
      if role.TreePage? && role.i < |procs| && procs[role.i].pagetable != 0 {
        FactsOf(mem, own, procs, nextpid, tramp, role.i);
      }
    }
  }

  /**
   Conservation of pages, in every reachable state: each page of RAM that is not the
   kernel's own is on the free list, or the trapframe or shared page of one process, or in
   one page table, and never two of these at once.
   */
  lemma Partition(k: Kernel, p: nat)
    requires k.Valid() && InRam(k.m.end, p) && p in k.m.own && !k.m.own[p].Kern?
    ensures exists role :: HasRole(k.m.mem, k.m.freelist, k.procs, p, role)
    ensures forall r1, r2 | HasRole(k.m.mem, k.m.freelist, k.procs, p, r1)
                            && HasRole(k.m.mem, k.m.freelist, k.procs, p, r2) :: r1 == r2
  {
    hide PtInv, ProcsInv, HasRole, RoleOf;
    forall role ensures HasRole(k.m.mem, k.m.freelist, k.procs, p, role) <==> role == OwnRole(k.m.own, p) {
      RoleIsOwner(k, p, role);
      OneRole(k.m.mem, k.m.own, k.procs, p, k.nextpid, k.tramp);
    }
    assert HasRole(k.m.mem, k.m.freelist, k.procs, p, OwnRole(k.m.own, p));
  }
}
