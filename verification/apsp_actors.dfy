/** The two actors of the distributed computation (all_pairs_shortest_path.rs, `actor_apsp`). */
module ApspActors {
  import opened Collections
  import opened Weights
  import opened FloydWarshall
  import opened Arithmetic
  import opened Blocks
  import opened Graphs

  datatype Phase = Initial | Normal(k: nat) {

    function Incremented(): Phase {
      match this
      case Initial => Normal(0)
      case Normal(k) => Normal(k + 1)
    }

    /** How many phases have been computed. */
    function Count(): nat {
      match this
      case Initial => 0
      case Normal(k) => k + 1
    }
  }

  datatype BlockMsg =
    | Neighbours(nodes: seq<nat>)
    | PhaseResult(k: Phase, data: Block)

  datatype Packet =
    | ToBlock(to: nat, msg: BlockMsg)
    | ToManager(block: Block)

  // The block actor as a function of its state.

  datatype Worker = Worker(
    numNodes: nat,
    ready: bool,
    neighbours: seq<nat>,
    k: Phase,
    neighbourData: map<nat, Block>,
    nextNeighbourData: map<nat, Block>,
    currentData: Block,
    done: bool
  ) {
    /** What the constructor establishes: a well placed block of a graph of `numNodes` vertices. */
    predicate Valid() {
      && currentData.WellPlaced()
      && numNodes == currentData.numBlocksPerDim * currentData.BlockSize()
      && numNodes > 0
      && (!done ==> k.Count() < numNodes)
    }

    /** One `PhaseResult` for every neighbour. */
    function Notifications(): (sent: seq<Packet>)
      ensures |sent| == |neighbours|
    {
      seq(|neighbours|, i requires 0 <= i < |neighbours| => ToBlock(neighbours[i], PhaseResult(k, currentData)))
    }

    predicate IsFull() {
      |neighbourData| == |neighbours|
    }

    /** The next phase finds every block it looks up. */
    predicate CanCompute() {
      LookupsDefined(currentData, neighbourData, k.Count())
    }

    /** One turn of the gather loop: the next phase from the gathered data, then the buffers swap. */
    function Advanced(): (w: Worker)
      requires Valid() && !done && CanCompute()
      ensures w.Valid()
    {
      this.(k := k.Incremented(),
            currentData := currentData.(data := RelaxBlock(currentData, neighbourData, k.Count())),
            neighbourData := nextNeighbourData,
            nextNeighbourData := map[],
            done := k.Count() == numNodes - 1)
    }

    /** What one turn of the loop sends, seen from the state after it. */
    function Announcements(): seq<Packet> {
      Notifications() + if done then [ToManager(currentData)] else []
    }
  }

  datatype Reaction = Handled(worker: Worker, sent: seq<Packet>) | Panicked

  /** The gather loop. */
  function GatherLoop(w: Worker): (r: Reaction)
    requires w.Valid() && !w.done && (|w.neighbours| > 0 || |w.neighbourData| > 0)
    ensures r.Handled? ==> r.worker.Valid()
    decreases |w.neighbourData| + |w.nextNeighbourData|
  {
    if !w.IsFull() then Handled(w, [])
    else if !w.CanCompute() then Panicked
    else
      var next := w.Advanced();
      if next.done then Handled(next, next.Announcements())
      else
        match GatherLoop(next)
        case Panicked => Panicked
        case Handled(last, sent) => Handled(last, next.Announcements() + sent)
  }

  function WithNeighbours(w: Worker, nodes: seq<nat>): Worker {
    w.(neighbours := nodes, ready := true)
  }

  function Gathering(w: Worker, data: Block): Worker {
    w.(neighbourData := w.neighbourData[data.blockId := data])
  }

  function Buffering(w: Worker, data: Block): Worker {
    w.(nextNeighbourData := w.nextNeighbourData[data.blockId := data])
  }

  /** One message at a block actor; a message that comes too early is queued again. */
  function Receive(w: Worker, msg: BlockMsg): (r: Reaction)
    requires w.Valid()
    ensures r.Handled? ==> r.worker.Valid()
  {
    match msg
    case Neighbours(nodes) =>
      var ready := WithNeighbours(w, nodes);
      Handled(ready, ready.Notifications())
    case PhaseResult(otherK, data) =>
      if !w.ready then Handled(w, [ToBlock(w.currentData.blockId, msg)])
      else if w.done then Handled(w, [])
      else if otherK == w.k then GatherLoop(Gathering(w, data))
      else if otherK == w.k.Incremented() then Handled(Buffering(w, data), [])
      else Panicked
  }

  // The block actor as an object.

  class BlockActor {
    const numNodes: nat
    var ready: bool
    var neighbours: seq<nat>
    var k: Phase
    var neighbourData: map<nat, Block>
    var nextNeighbourData: map<nat, Block>
    var currentData: Block
    var done: bool

    function State(): Worker
      reads this
    {
      Worker(numNodes, ready, neighbours, k, neighbourData, nextNeighbourData, currentData, done)
    }

    constructor With(initialBlock: Block, numNodes: nat)
      ensures State() == Worker(numNodes, false, [], Initial, map[], map[], initialBlock, false)
    {
      this.numNodes := numNodes;
      ready, done := false, false;
      neighbours := [];
      k := Initial;
      neighbourData, nextNeighbourData := map[], map[];
      currentData := initialBlock;
    }

    method NotifyNeighbours() returns (sent: seq<Packet>)
      requires ready
      ensures sent == State().Notifications()
    {
      sent := [];
      for i := 0 to |neighbours|
        invariant sent == State().Notifications()[..i]
      {
        sent := sent + [ToBlock(neighbours[i], PhaseResult(k, currentData))];
      }
    }

    /** Computes phase `k` on a private copy; a missing neighbour block is a panic. */
    method PerformComputation() returns (panicked: bool)
      requires k.Normal? && currentData.WellPlaced()
      requires k.k / currentData.BlockSize() < currentData.numBlocksPerDim
      modifies this`neighbourData, this`currentData
      ensures panicked <==> !LookupsDefined(old(currentData), old(neighbourData), k.k)
      ensures !panicked ==>
        && neighbourData == map[]
        && currentData == old(currentData).(data := RelaxBlock(old(currentData), old(neighbourData), k.k))
    {
      panicked := true;
      if LookupsDefined(currentData, neighbourData, k.k) {
        panicked := false;
        var gathered := neighbourData;
        neighbourData := map[];
        var owned := new OwnedBlock(currentData);
        owned.ComputeFloydWarshallInner(gathered, k.k);
        currentData := owned.Snapshot();
      }
    }

    /** The body of the gather loop. */
    method AdvancePhase() returns (sent: seq<Packet>, panicked: bool)
      requires ready && !done && State().Valid()
      modifies this
      ensures panicked <==> !old(State()).CanCompute()
      ensures !panicked ==> State() == old(State()).Advanced() && sent == State().Announcements()
    {
      sent := [];
      PhaseInRange(State());
      k := k.Incremented();
      panicked := PerformComputation();
      if !panicked {
        sent := NotifyNeighbours();
        neighbourData, nextNeighbourData := nextNeighbourData, neighbourData;
        if k == Normal(numNodes - 1) {
          sent := sent + [ToManager(currentData)];
          done := true;
        }
      }
    }

    /** `while` the buffer is full, advance; a finished actor does not run the loop again. */
    method GatherAndAdvance() returns (sent: seq<Packet>, panicked: bool)
      requires ready && !done && State().Valid() && (|neighbours| > 0 || |neighbourData| > 0)
      modifies this
      ensures panicked <==> GatherLoop(old(State())).Panicked?
      ensures !panicked ==> GatherLoop(old(State())) == Handled(State(), sent)
    {
      sent, panicked := [], false;
      ghost var whole := GatherLoop(State());
      while |neighbourData| == |neighbours|
        invariant ready && !done && State().Valid() && (|neighbours| > 0 || |neighbourData| > 0)
        invariant Continues(whole, sent, State())
        decreases |neighbourData| + |nextNeighbourData|
      {
        ghost var before := State();
        var announced;
        announced, panicked := AdvancePhase();
        LoopTurn(whole, sent, before);
        if panicked {
          return;
        }
        assert State() == before.Advanced();
        sent := sent + announced;
        if done {
          return;
        }
      }
    }

    /** The handler does what `Receive` says, panics included. */
    method ReceiveLocal(msg: BlockMsg) returns (sent: seq<Packet>, panicked: bool)
      requires State().Valid()
      modifies this
      ensures panicked <==> Receive(old(State()), msg).Panicked?
      ensures !panicked ==> Receive(old(State()), msg) == Handled(State(), sent)
    {
      sent, panicked := [], false;
      match msg {
        case Neighbours(nodes) =>
          neighbours := nodes;
          ready := true;
          sent := NotifyNeighbours();
        case PhaseResult(otherK, data) =>
          if !ready {
            sent := [ToBlock(currentData.blockId, msg)];
          } else if !done {
            if otherK == k {
              neighbourData := neighbourData[data.blockId := data];
              assert State() == Gathering(old(State()), data);
              sent, panicked := GatherAndAdvance();
            } else if otherK == k.Incremented() {
              nextNeighbourData := nextNeighbourData[data.blockId := data];
            } else {
              panicked := true;
            }
          }
      }
    }
  }

  lemma PhaseInRange(w: Worker)
    requires w.Valid() && !w.done
    ensures w.k.Count() / w.currentData.BlockSize() < w.currentData.numBlocksPerDim
  {
    QuotientBelow(w.k.Count(), w.currentData.BlockSize(), w.currentData.numBlocksPerDim);
  }

  /** `whole` is what remains to be done from `w`, after `sent` has been sent. */
  ghost predicate Continues(whole: Reaction, sent: seq<Packet>, w: Worker)
    requires w.Valid() && !w.done && (|w.neighbours| > 0 || |w.neighbourData| > 0)
  {
    match GatherLoop(w)
    case Panicked => whole.Panicked?
    case Handled(last, more) => whole == Handled(last, sent + more)
  }

  /** One turn of the loop, followed by what remains to be done. */
  lemma LoopTurn(whole: Reaction, sent: seq<Packet>, w: Worker)
    requires w.Valid() && !w.done && (|w.neighbours| > 0 || |w.neighbourData| > 0)
    requires Continues(whole, sent, w) && w.IsFull()
    ensures !w.CanCompute() ==> whole.Panicked?
    ensures w.CanCompute() ==>
      var next := w.Advanced();
      if next.done then whole == Handled(next, sent + next.Announcements())
      else Continues(whole, sent + next.Announcements(), next)
  {
    if w.CanCompute() && !w.Advanced().done {
      var next := w.Advanced();
      match GatherLoop(next) {
        case Panicked =>
        case Handled(last, more) =>
          assert sent + (next.Announcements() + more) == (sent + next.Announcements()) + more;
      }
    }
  }
}
