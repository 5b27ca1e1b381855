/** The two engines together, as objects (distserve/engine.py): each method is one stretch of a
    coroutine between two awaits, so any interleaving is some sequence of calls. */
module LLMEngines {
  import opened Common
  import opened Requests
  import opened Disaggregated
  import opened DecodingStages
  import opened ContextStages

  class LLMEngine {
    const config: SysConfig
    const bridgeQueue: BridgeQueue
    const contextEngine: ContextStageLLMEngine
    const decodingEngine: DecodingStageLLMEngine

    ghost function Repr(): set<object> {
      {bridgeQueue, contextEngine, contextEngine.scheduler, contextEngine.blockManager,
       decodingEngine, decodingEngine.scheduler, decodingEngine.blockManager}
    }

    /** The engines share the bridge and nothing else. */
    ghost predicate Wired()
      reads Repr()
    {
      && config.Valid()
      && contextEngine.config == config.ctx && decodingEngine.config == config.dec
      && contextEngine.bridgeQueue == bridgeQueue
      && contextEngine.blockManager != decodingEngine.blockManager
      && contextEngine.Linked() && decodingEngine.Linked()
    }

    ghost function View(): Sys
      requires Wired()
      reads Repr()
    {
      Sys(contextEngine.View(), bridgeQueue.items, decodingEngine.View())
    }

    ghost predicate Valid()
      reads Repr()
    {
      Wired() && Typed(config, View())
    }

    constructor (config: SysConfig)
      requires config.Valid()
      ensures Valid() && this.config == config && View() == Init(config)
    {
      this.config := config;
      var bridge := new BridgeQueue();
      var ctx := new ContextStageLLMEngine(config.ctx, bridge);
      var dec := new DecodingStageLLMEngine(config.dec);
      bridgeQueue := bridge;
      contextEngine := ctx;
      decodingEngine := dec;
      new;
      InitTyped(config);
      assert View() == Init(config);
    }

    method Generate(r: Req) returns (raised: Option<Error>)
      requires Valid() && Enabled(config, View(), Arrive(r))
      modifies Repr()
      ensures Wired() && Agrees(raised, Step(config, old(View()), Arrive(r)), View())
      ensures raised.None? ==> Valid()
    {
      contextEngine.AddRequest(r);
      return None;
    }

    method ContextStepSubmit() returns (raised: Option<Error>)
      requires Valid() && Enabled(config, View(), CtxStep)
      modifies Repr()
      ensures Wired() && Agrees(raised, Step(config, old(View()), CtxStep), View())
      ensures raised.None? ==> Valid()
    {
      raised := contextEngine.SubmitCore();
    }

    method ContextStepReturn(tokens: seq<Token>) returns (raised: Option<Error>)
      requires Valid() && Enabled(config, View(), CtxBack(tokens))
      modifies Repr()
      ensures Wired() && Agrees(raised, Step(config, old(View()), CtxBack(tokens)), View())
      ensures raised.None? ==> Valid()
    {
      raised := contextEngine.ReturnCore(tokens);
    }

    method MoveAcrossBridge() returns (raised: Option<Error>)
      requires Valid() && Enabled(config, View(), Bridge)
      modifies Repr()
      ensures Wired() && Agrees(raised, Step(config, old(View()), Bridge), View())
      ensures raised.None? ==> Valid()
    {
      var m := bridgeQueue.Get();
      decodingEngine.Receive(m);
      return None;
    }

    method DecodingStepSubmit() returns (raised: Option<Error>)
      requires Valid() && Enabled(config, View(), DecStep)
      modifies Repr()
      ensures Wired() && Agrees(raised, Step(config, old(View()), DecStep), View())
      ensures raised.None? ==> Valid()
    {
      raised := decodingEngine.SubmitCore();
    }

    method DecodingStepReturn(tokens: seq<Token>) returns (raised: Option<Error>)
      requires Valid() && Enabled(config, View(), DecBack(tokens))
      modifies Repr()
      ensures Wired() && Agrees(raised, Step(config, old(View()), DecBack(tokens)), View())
      ensures raised.None? ==> Valid()
    {
      raised := decodingEngine.ReturnCore(tokens);
    }

    method MigrationBegin() returns (raised: Option<Error>)
      requires Valid() && Enabled(config, View(), MigBegin)
      modifies Repr()
      ensures Wired() && Agrees(raised, Step(config, old(View()), MigBegin), View())
      ensures raised.None? ==> Valid()
    {
      raised := decodingEngine.MigrateBeginCore();
    }

    method MigrationEnd() returns (raised: Option<Error>)
      requires Valid() && Enabled(config, View(), MigEnd)
      modifies Repr()
      ensures Wired() && Agrees(raised, Step(config, old(View()), MigEnd), View())
      ensures raised.None? ==> Valid()
    {
      raised := contextEngine.ClearMigratedBlocks(decodingEngine.phase.mig);
      decodingEngine.MigrateEndCore();
    }

    method DecodingStepFinish() returns (raised: Option<Error>)
      requires Valid() && Enabled(config, View(), DecDone)
      modifies Repr()
      ensures Wired() && Agrees(raised, Step(config, old(View()), DecDone), View())
      ensures raised.None? ==> Valid()
    {
      decodingEngine.FinishCore();
      return None;
    }
  }
}
