// Units of work that hold any number of service calls, committed or dropped, whatever
// the calls in them raised.

module Blocks {
  import opened Domain
  import opened Records
  import opened Ledgers
  import opened Database
  import opened LedgerInvariants
  import opened Services
  import opened Coupling
  import opened ServiceRuns

  // A call leaves its writes in the open block whether it returns or raises.
  function Within(w: World, c: Call): World { World(ServeDb(w, c).0, ServeManager(w, c)) }

  function WithinAll(w: World, cs: seq<Call>): World {
    if cs == [] then w else Within(WithinAll(w, cs[..|cs| - 1]), cs[|cs| - 1])
  }

  datatype Block = Block(calls: seq<Call>, commit: bool)

  // The manager has no part in the block.
  function AfterBlock(w: World, b: Block): World {
    var v := WithinAll(w, b.calls);
    World(if b.commit then v.db else w.db, v.manager)
  }

  function RunBlocks(w: World, bs: seq<Block>): World {
    if bs == [] then w else AfterBlock(RunBlocks(w, bs[..|bs| - 1]), bs[|bs| - 1])
  }

  /******* Blocks whose calls all return *******/

  ghost predicate AllReturn(w: World, cs: seq<Call>) {
    cs != [] ==> AllReturn(w, cs[..|cs| - 1]) && ServeDb(WithinAll(w, cs[..|cs| - 1]), cs[|cs| - 1]).1
  }

  lemma ReturnedWithin(w: World, c: Call)
    requires ServeDb(w, c).1
    ensures Within(w, c) == Serve(w, c)
  {
    hide ServeDb, ServeManager;
  }

  // One block around calls that all return commits what a block around each of them would.
  lemma {:induction false} SharedIsSeparate(w: World, cs: seq<Call>)
    requires AllReturn(w, cs)
    ensures AfterBlock(w, Block(cs, true)) == WithinAll(w, cs) == RunCalls(w, cs)
  {
    hide ServeDb, ServeManager, Serve, Within;
    if cs != [] {
      SharedIsSeparate(w, cs[..|cs| - 1]);
      ReturnedWithin(WithinAll(w, cs[..|cs| - 1]), cs[|cs| - 1]);
    }
  }

  /******* Blocks whatever their calls raise *******/

  ghost predicate SoundWithin(w: World, cs: seq<Call>) {
    cs != [] ==> SoundWithin(w, cs[..|cs| - 1]) && Sound(WithinAll(w, cs[..|cs| - 1]), cs[|cs| - 1])
  }

  ghost predicate SoundBlocks(w: World, bs: seq<Block>) {
    bs != [] ==> SoundBlocks(w, bs[..|bs| - 1]) && SoundWithin(RunBlocks(w, bs[..|bs| - 1]), bs[|bs| - 1].calls)
  }

  lemma {:induction false} WithinGood(w: World, cs: seq<Call>)
    requires Inv(w.db) && SoundWithin(w, cs)
    ensures Good(w.db, WithinAll(w, cs).db)
  {
    hide Inv, Extends, Sound, ServeDb, ServeManager;
    if cs == [] {
      ExtendsSelf(w.db);
    } else {
      var v := WithinAll(w, cs[..|cs| - 1]);
      WithinGood(w, cs[..|cs| - 1]);
      CallGood(v, cs[|cs| - 1]);
      ExtendsTransitive(w.db, v.db, WithinAll(w, cs).db);
    }
  }

  // A caller that catches what a call raised and commits all the same commits a part of
  // the call; still the ledgers stay consistent and only grow, over any run of blocks.
  lemma {:induction false} BlocksKeepLedgers(w: World, bs: seq<Block>)
    requires Inv(w.db) && SoundBlocks(w, bs)
    ensures Good(w.db, RunBlocks(w, bs).db)
  {
    hide Inv, Extends, SoundWithin, WithinAll;
    if bs == [] {
      ExtendsSelf(w.db);
    } else {
      var v := RunBlocks(w, bs[..|bs| - 1]);
      BlocksKeepLedgers(w, bs[..|bs| - 1]);
      ExtendsSelf(v.db);
      WithinGood(v, bs[|bs| - 1].calls);
      ExtendsTransitive(w.db, v.db, RunBlocks(w, bs).db);
    }
  }
}
