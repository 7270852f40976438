/** The check of a workload before it is simulated, as the program makes it: loop by loop over
    workflows, turns and updates. */
module HeadroomWorkload {
  import opened HeadroomModel

  method CheckBlocks(blocks: seq<Block>) returns (ok: bool)
    ensures ok <==> ValidBlocks(blocks)
  {
    for i := 0 to |blocks|
      invariant forall j :: 0 <= j < i ==> blocks[j] != ""
    {
      if blocks[i] == "" {
        assert blocks[i] in blocks;
        return false;
      }
    }
    ok := true;
  }

  /** The updates up to `n` are in order, within the wait, and revise to proper blocks. */
  ghost predicate OrderedUpTo(turn: Turn, n: nat)
    requires n <= |turn.updates|
  {
    && (forall i, j :: 0 <= i < j < n ==> turn.updates[i].at <= turn.updates[j].at)
    && (forall i :: 0 <= i < n ==>
          0.0 <= turn.updates[i].at <= turn.wait && (turn.updates[i].Revise? ==> ValidBlocks(turn.updates[i].prefix)))
  }

  lemma Disordered(c: Config, turn: Turn, n: nat)
    requires n < |turn.updates| && OrderedUpTo(turn, n) && ValidUpdates(c, turn)
    ensures OrderedUpTo(turn, n + 1)
  {
    assert turn.updates[n] in turn.updates;
  }

  method CheckUpdates(c: Config, turn: Turn) returns (ok: bool)
    ensures ok ==> OrderedUpTo(turn, |turn.updates|)
    ensures ValidUpdates(c, turn) ==> ok
  {
    hide ValidUpdates;
    var last := -1.0;
    for i := 0 to |turn.updates|
      invariant OrderedUpTo(turn, i) && last == if i == 0 then -1.0 else turn.updates[i - 1].at
    {
      var update := turn.updates[i];
      if ValidUpdates(c, turn) { Disordered(c, turn, i); }
      if update.at < 0.0 { return false; }
      if update.at < last || update.at > turn.wait { return false; }
      last := update.at;
      if update.Revise? {
        var fine := CheckBlocks(update.prefix);
        if !fine { return false; }
      }
    }
    ok := true;
  }

  /** Whether the intent and every revision of it fit the cache. */
  method CheckCandidates(c: Config, turn: Turn) returns (ok: bool)
    ensures ok <==> |turn.intent| <= c.cacheBlocks && forall u :: u in turn.updates && u.Revise? ==> |u.prefix| <= c.cacheBlocks
  {
    if |turn.intent| > c.cacheBlocks { return false; }
    for i := 0 to |turn.updates|
      invariant forall j :: 0 <= j < i && turn.updates[j].Revise? ==> |turn.updates[j].prefix| <= c.cacheBlocks
    {
      if turn.updates[i].Revise? && |turn.updates[i].prefix| > c.cacheBlocks {
        assert turn.updates[i] in turn.updates;
        return false;
      }
    }
    ok := true;
  }

  lemma UpdatesValid(c: Config, turn: Turn)
    requires OrderedUpTo(turn, |turn.updates|) && forall u :: u in turn.updates && u.Revise? ==> |u.prefix| <= c.cacheBlocks
    ensures ValidUpdates(c, turn)
  {
    forall u | u in turn.updates
      ensures 0.0 <= u.at <= turn.wait && (u.Revise? ==> ValidBlocks(u.prefix) && |u.prefix| <= c.cacheBlocks)
    {
      var i :| 0 <= i < |turn.updates| && turn.updates[i] == u;
    }
  }

  method CheckTurn(c: Config, turn: Turn, first: bool) returns (ok: bool)
    ensures ok <==> ValidTurn(c, turn, first)
  {
    hide ValidBlocks, OrderedUpTo;
    ok := CheckBlocks(turn.prompt);
    if !ok { return; }
    ok := CheckBlocks(turn.generated);
    if !ok { return; }
    if turn.prompt == [] || |turn.prompt + turn.generated| > c.cacheBlocks { return false; }
    if turn.decode <= 0.0 || turn.wait < 0.0 { return false; }
    if first && (turn.intent != [] || turn.updates != []) { return false; }
    ok := CheckBlocks(turn.intent);
    if !ok { return; }
    ok := CheckUpdates(c, turn);
    if !ok { return; }
    ok := CheckCandidates(c, turn);
    if ok { UpdatesValid(c, turn); }
  }

  method CheckWorkflow(c: Config, f: Workflow) returns (ok: bool)
    ensures ok <==> ValidWorkflow(c, f)
  {
    hide ValidTurn;
    if f.id == "" || f.arrival < 0.0 || f.turns == [] { return false; }
    for i := 0 to |f.turns|
      invariant forall j :: 0 <= j < i ==> ValidTurn(c, f.turns[j], j == 0)
    {
      ok := CheckTurn(c, f.turns[i], i == 0);
      if !ok { return; }
    }
    ok := true;
  }

  /** Accepts exactly the valid workloads. */
  method Validate(c: Config) returns (ok: bool)
    ensures ok <==> Validated(c)
  {
    hide ValidWorkflow;
    if c.cacheBlocks < 1 || c.budget < 1 || c.chunk < 1 { return false; }
    if c.prefill <= 0.0 || c.horizon <= 0.0 || c.workflows == [] { return false; }
    var ids: set<Id> := {};
    for i := 0 to |c.workflows|
      invariant forall x :: x in ids <==> exists k :: 0 <= k < i && c.workflows[k].id == x
      invariant forall j, k :: 0 <= j < k < i ==> c.workflows[j].id != c.workflows[k].id
      invariant forall j :: 0 <= j < i ==> ValidWorkflow(c, c.workflows[j])
    {
      var f := c.workflows[i];
      assert f in c.workflows;
      if f.id in ids {
        ghost var k :| 0 <= k < i && c.workflows[k].id == f.id;
        return false;
      }
      ids := ids + {f.id};
      ok := CheckWorkflow(c, f);
      if !ok { return; }
    }
    ok := true;
  }
}
