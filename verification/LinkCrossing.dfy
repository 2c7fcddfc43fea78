/** Link and unlink calls that cross do leave a link dangling. */
module LinkCrossing {
  import opened Protocol
  import opened LinkSafety

  const A := Address(0, 0)
  const B := Address(1, 0)

  function Cell(main: Address, links: set<Address>, queue: seq<SysMsg>, outbox: seq<SysMsg>): ContainerState {
    ContainerState(main, Running, map[main := Job(links, {}, {})], map[], 0, false, queue, outbox, [])
  }

  function Two(a: ContainerState, b: ContainerState): System {
    map[0 := a, 1 := b]
  }

  lemma Births()
    ensures Next(map[], Start(0, A, {}), map[0 := NewContainer(A, {})])
    ensures Next(map[0 := NewContainer(A, {})], StartDone(0), map[0 := Cell(A, {}, [], [])])
    ensures Next(map[0 := Cell(A, {}, [], [])], Start(1, B, {}), Two(Cell(A, {}, [], []), NewContainer(B, {})))
    ensures Next(Two(Cell(A, {}, [], []), NewContainer(B, {})), StartDone(1), Two(Cell(A, {}, [], []), Cell(B, {}, [], [])))
  {
  }

  lemma CellLinked(main: Address, links: set<Address>, queue: seq<SysMsg>, peer: Address)
    ensures Linked(Cell(main, links, queue, []), main, peer) == Cell(main, links + {peer}, queue, [])
  {
    assert map[main := Job(links, {}, {})][main := Job(links + {peer}, {}, {})] == map[main := Job(links + {peer}, {}, {})];
  }

  lemma CellUnlinked(main: Address, links: set<Address>, queue: seq<SysMsg>, peer: Address)
    ensures Unlinked(Cell(main, links, queue, []), main, peer) == Cell(main, links - {peer}, queue, [])
  {
    assert map[main := Job(links, {}, {})][main := Job(links - {peer}, {}, {})] == map[main := Job(links - {peer}, {}, {})];
  }

  lemma FirstLink()
    ensures Next(Two(Cell(A, {}, [], []), Cell(B, {}, [], [])),
                 CallLink(0, A, B),
                 Two(Cell(A, {B}, [], []), Cell(B, {}, [Connect(A, B)], [])))
  {
    var s := Two(Cell(A, {}, [], []), Cell(B, {}, [], []));
    CellLinked(A, {}, [], B);
    assert {} + {B} == {B};
    var s1 := s[0 := Cell(A, {B}, [], [])];
    assert [] + [Connect(A, B)] == [Connect(A, B)];
    assert Push(s1, 1, Connect(A, B)) == Two(Cell(A, {B}, [], []), Cell(B, {}, [Connect(A, B)], []));
  }

  lemma SecondLink()
    ensures Next(Two(Cell(A, {B}, [], []), Cell(B, {}, [Connect(A, B)], [])),
                 CallLink(1, B, A),
                 Two(Cell(A, {B}, [Connect(B, A)], []), Cell(B, {A}, [Connect(A, B)], [])))
  {
    var s := Two(Cell(A, {B}, [], []), Cell(B, {}, [Connect(A, B)], []));
    CellLinked(B, {}, [Connect(A, B)], A);
    assert {} + {A} == {A};
    var s1 := s[1 := Cell(B, {A}, [Connect(A, B)], [])];
    assert [] + [Connect(B, A)] == [Connect(B, A)];
    assert Push(s1, 0, Connect(B, A)) == Two(Cell(A, {B}, [Connect(B, A)], []), Cell(B, {A}, [Connect(A, B)], []));
  }

  lemma CrossingUnlink()
    ensures Next(Two(Cell(A, {B}, [Connect(B, A)], []), Cell(B, {A}, [Connect(A, B)], [])),
                 CallUnlink(0, A, B),
                 Two(Cell(A, {}, [Connect(B, A)], [Disconnect(A, B)]), Cell(B, {A}, [Connect(A, B)], [])))
  {
    CellUnlinked(A, {B}, [Connect(B, A)], B);
    assert {B} - {B} == {};
  }

  lemma CrossingFlush()
    ensures Next(Two(Cell(A, {}, [Connect(B, A)], [Disconnect(A, B)]), Cell(B, {A}, [Connect(A, B)], [])),
                 Flush(0),
                 Two(Cell(A, {}, [Connect(B, A)], []), Cell(B, {A}, [Connect(A, B), Disconnect(A, B)], [])))
  {
    var s := Two(Cell(A, {}, [Connect(B, A)], [Disconnect(A, B)]), Cell(B, {A}, [Connect(A, B)], []));
    var s1 := s[0 := s[0].(outbox := s[0].outbox[1..])];
    assert s1[0] == Cell(A, {}, [Connect(B, A)], []);
    assert [Connect(A, B)] + [Disconnect(A, B)] == [Connect(A, B), Disconnect(A, B)];
    assert Push(s1, 1, Disconnect(A, B))[1] == Cell(B, {A}, [Connect(A, B), Disconnect(A, B)], []);
  }

  lemma Deliveries()
    ensures Next(Two(Cell(A, {}, [Connect(B, A)], []), Cell(B, {A}, [Connect(A, B), Disconnect(A, B)], [])),
                 Handle(1),
                 Two(Cell(A, {}, [Connect(B, A)], []), Cell(B, {A}, [Disconnect(A, B)], [])))
    ensures Next(Two(Cell(A, {}, [Connect(B, A)], []), Cell(B, {A}, [Disconnect(A, B)], [])),
                 Handle(1),
                 Two(Cell(A, {}, [Connect(B, A)], []), Cell(B, {}, [], [])))
    ensures Next(Two(Cell(A, {}, [Connect(B, A)], []), Cell(B, {}, [], [])),
                 Handle(0),
                 Two(Cell(A, {B}, [], []), Cell(B, {}, [], [])))
  {
    CellLinked(B, {A}, [Disconnect(A, B)], A);
    CellUnlinked(B, {A}, [], A);
    CellLinked(A, {}, [], B);
    assert {A} + {A} == {A} && {A} - {A} == {} && {} + {B} == {B};
    assert [Connect(A, B), Disconnect(A, B)][1..] == [Disconnect(A, B)];
  }

  /** The states of the run, in order. */
  function Crossing(k: nat): System {
    match k
    case 0 => map[]
    case 1 => map[0 := NewContainer(A, {})]
    case 2 => map[0 := Cell(A, {}, [], [])]
    case 3 => Two(Cell(A, {}, [], []), NewContainer(B, {}))
    case 4 => Two(Cell(A, {}, [], []), Cell(B, {}, [], []))
    case 5 => Two(Cell(A, {B}, [], []), Cell(B, {}, [Connect(A, B)], []))
    case 6 => Two(Cell(A, {B}, [Connect(B, A)], []), Cell(B, {A}, [Connect(A, B)], []))
    case 7 => Two(Cell(A, {}, [Connect(B, A)], [Disconnect(A, B)]), Cell(B, {A}, [Connect(A, B)], []))
    case 8 => Two(Cell(A, {}, [Connect(B, A)], []), Cell(B, {A}, [Connect(A, B), Disconnect(A, B)], []))
    case 9 => Two(Cell(A, {}, [Connect(B, A)], []), Cell(B, {A}, [Disconnect(A, B)], []))
    case 10 => Two(Cell(A, {}, [Connect(B, A)], []), Cell(B, {}, [], []))
    case _ => Two(Cell(A, {B}, [], []), Cell(B, {}, [], []))
  }

  function CrossingStep(k: nat): Step {
    match k
    case 0 => Start(0, A, {})
    case 1 => StartDone(0)
    case 2 => Start(1, B, {})
    case 3 => StartDone(1)
    case 4 => CallLink(0, A, B)
    case 5 => CallLink(1, B, A)
    case 6 => CallUnlink(0, A, B)
    case 7 => Flush(0)
    case 8 => Handle(1)
    case 9 => Handle(1)
    case _ => Handle(0)
  }

  lemma CrossingNext(k: nat)
    requires k < 11
    ensures Next(Crossing(k), CrossingStep(k), Crossing(k + 1))
  {
    if k < 4 {
      Births();
    } else if k == 4 {
      FirstLink();
    } else if k == 5 {
      SecondLink();
    } else if k == 6 {
      CrossingUnlink();
    } else if k == 7 {
      CrossingFlush();
    } else {
      Deliveries();
    }
  }

  lemma EndDangles()
    ensures var s := Crossing(11);
      && Live(s, A) && Live(s, B) && IsLinked(s, A, B) && !IsLinked(s, B, A)
      && (forall i :: Queue(s, i) == [] && Outbox(s, i) == [])
  {
  }

  /** Two jobs link to each other and one of them unlinks before it has seen the
      request of the other: it stays linked to a peer that has forgotten it, and
      nothing is under way that would change this. */
  lemma CrossingCanDangle() returns (states: seq<System>, steps: seq<Step>)
    ensures IsRun(states, steps)
    ensures var s := states[|states| - 1];
      && Live(s, A) && Live(s, B) && IsLinked(s, A, B) && !IsLinked(s, B, A)
      && (forall i :: Queue(s, i) == [] && Outbox(s, i) == [])
  {
    steps := seq(11, k requires 0 <= k < 11 => CrossingStep(k));
    states := seq(12, k requires 0 <= k < 12 => Crossing(k));
    forall k | 0 <= k < |steps| ensures Next(states[k], steps[k], states[k + 1]) { CrossingNext(k); }
    EndDangles();
  }
}
