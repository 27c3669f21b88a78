/** One request at a time to a killable helper process, whose replies carry no request number: the
    pairing rests on nothing but the transport's discipline of never using itself again after a
    failure. */
module Transport {
  import opened Records

  const TOOLS := {"simmis_worker-pending", "simmis_worker-claim", "simmis_worker-input",
                  "simmis_worker-heartbeat", "simmis_worker-complete", "simmis_worker-stop"}

  datatype Request = Open | Call(name: string, arguments: nat) | Close

  /** A value knows which request the helper computed it for; no code looks at `of`. */
  datatype Value = Value(of: nat, payload: nat)

  datatype Reply = Yes(value: Value) | No

  /** Every answer is to the request at its place; a refusal is the last word of a dead helper. */
  predicate Answers(requests: seq<Request>, replies: seq<Reply>, alive: bool) {
    && (forall i | 0 <= i < |replies| :: replies[i].Yes? ==> i < |requests| && replies[i].value.of == i)
    && (forall i | 0 <= i < |replies| :: replies[i].No? ==> i == |replies| - 1 && !alive)
    && (alive ==> |replies| <= |requests|)
  }

  /** The helper reads requests one after the other and answers each before it reads the next. It
      may die at any time, and then emits at most one last refusal. */
  class Helper {
    var requests: seq<Request>
    var replies: seq<Reply>
    var alive: bool

    predicate Valid()
      reads this
    {
      Answers(requests, replies, alive)
    }

    constructor ()
      ensures Valid() && requests == [] && replies == [] && alive
    {
      requests, replies, alive := [], [], true;
    }

    /** A complete request line arrives. */
    method Receive(request: Request)
      requires Valid()
      modifies this`requests
      ensures Valid() && requests == old(requests) + [request]
    {
      requests := requests + [request];
    }

    /** Any progress: answers to pending requests, and perhaps the helper's end. */
    method Progress()
      requires Valid()
      modifies this`replies, this`alive
      ensures Valid() && old(replies) <= replies
      ensures !old(alive) ==> !alive && replies == old(replies)
    {
      if !alive { return; }
      var dies: bool, refuses: bool := *, *;
      while |replies| < |requests|
        invariant Valid() && alive && old(replies) <= replies
      {
        var stops: bool := *;
        if stops { break; }
        var payload: nat := *;
        replies := replies + [Yes(Value(|replies|, payload))];
      }
      if dies {
        alive := false;
        if refuses { replies := replies + [No]; }
      }
    }

    method Kill()
      requires Valid()
      modifies this`alive
      ensures Valid() && !alive
    {
      alive := false;
    }
  }

  datatype Exchange = Exchange(request: Request, result: Option<Value>)

  /** The value returned by call i is the helper's reply to request i, and to the very request
      made. */
  ghost predicate Paired(history: seq<Exchange>, requests: seq<Request>, replies: seq<Reply>) {
    forall i | 0 <= i < |history| && history[i].result.Some? ::
      && i < |requests| && requests[i] == history[i].request
      && i < |replies| && replies[i] == Yes(history[i].result.value)
      && history[i].result.value.of == i
  }

  /** Only the last request can have failed, and then the transport is closed. */
  ghost predicate Closes(history: seq<Exchange>, open: bool) {
    forall i | 0 <= i < |history| && history[i].result.None? :: i == |history| - 1 && !open
  }

  /** The helper is never asked for anything but the worker's own tools. */
  ghost predicate OnlyTools(requests: seq<Request>) {
    forall i | 0 <= i < |requests| && requests[i].Call? :: requests[i].name in TOOLS
  }

  lemma PairsGrow(history: seq<Exchange>, requests: seq<Request>, replies: seq<Reply>, more: seq<Request>, later: seq<Reply>)
    requires Paired(history, requests, replies) && requests <= more && replies <= later
    ensures Paired(history, more, later)
  {
  }

  lemma PairsExtend(history: seq<Exchange>, requests: seq<Request>, replies: seq<Reply>, e: Exchange)
    requires Paired(history, requests, replies) && Closes(history, true)
    requires var n := |history|;
             e.result.Some? ==> n < |requests| && requests[n] == e.request && n < |replies| && replies[n] == Yes(e.result.value) && e.result.value.of == n
    ensures Paired(history + [e], requests, replies) && Closes(history + [e], e.result.Some?)
  {
  }

  class MCP {
    var process: Helper?
    var open: bool
    /** How many replies were read from the helper. */
    var read: nat
    /** How often a candidate stop was requested, each time before the helper was joined. */
    var notified: nat
    /** Every request of the transport's one session, in order. */
    ghost var history: seq<Exchange>

    ghost predicate Valid()
      reads this, process
    {
      && (process == null ==> !open && history == [])
      && (process != null ==> InOrder(process))
    }

    ghost predicate InOrder(helper: Helper)
      reads this, helper
    {
      && helper.Valid() && Paired(history, helper.requests, helper.replies) && Closes(history, open)
      && OnlyTools(helper.requests)
      && (if open then InStep(helper, |history|) else !helper.alive)
    }

    /** After `n` successful calls every reply to them was read. */
    ghost predicate InStep(helper: Helper, n: nat)
      reads this, helper
    {
      |helper.requests| == n == read && n <= |helper.replies|
    }

    constructor ()
      ensures Valid() && process == null && !open && notified == 0
    {
      process, open, read, notified, history := null, false, 0, 0, [];
    }

    /** `_terminate`: kill and join the helper, drop the pipes. */
    method Terminate()
      requires process != null ==> process.Valid()
      modifies this`open, process
      ensures !open && (process != null ==> process.Valid() && !process.alive)
      ensures process != null ==> process.requests == old(process.requests) && process.replies == old(process.replies)
    {
      if process != null && process.alive { process.Kill(); }
      open := false;
    }

    /** `_request`. A failed write leaves no complete line behind; a read may time out although a
        reply arrives later. Any failure closes the transport for good. */
    method Request(request: Request) returns (result: Option<Value>)
      requires Valid() && (request.Call? ==> request.name in TOOLS)
      modifies this`open, this`read, this`notified, this`history, process
      ensures Valid() && process == old(process)
      ensures !old(open) ==> result == None && history == old(history) && !open && notified == old(notified)
      ensures old(open) ==> history == old(history) + [Exchange(request, result)]
      ensures old(open) ==> (open <==> result.Some?)
      ensures old(open) ==> notified == old(notified) + (if result.Some? then 0 else 1)
    {
      if !open { return None; }
      ghost var requests, replies := process.requests, process.replies;
      result := Converse(request);
      PairsGrow(history, requests, replies, process.requests, process.replies);
      PairsExtend(history, process.requests, process.replies, Exchange(request, result));
      if result.None? {
        notified := notified + 1;
        Terminate();
      }
      history := history + [Exchange(request, result)];
    }

    /** One write and one read with the helper at work meanwhile. */
    method Converse(request: Request) returns (result: Option<Value>)
      requires process != null && process.Valid() && InStep(process, |history|)
      modifies this`read, process
      ensures process.Valid() && (process.requests == old(process.requests) || process.requests == old(process.requests) + [request])
      ensures old(process.replies) <= process.replies
      ensures result.Some? ==> InStep(process, |history| + 1) && process.requests == old(process.requests) + [request]
      ensures result.Some? ==> process.replies[read - 1] == Yes(result.value) && result.value.of == read - 1
    {
      result := None;
      var written: bool := *;
      if !written { return; }
      process.Receive(request);
      process.Progress();
      var late: bool := *;
      if late || read >= |process.replies| { return; }
      var response := process.replies[read];
      read := read + 1;
      if response.Yes? { result := Some(response.value); }
    }

    /** `__enter__`: single use. */
    method Enter(started: bool, helper: Helper) returns (ok: bool)
      requires Valid() && helper.Valid() && helper.requests == [] && helper.replies == [] && helper.alive
      modifies this, helper
      ensures Valid()
      ensures old(process) != null ==> !ok && process == old(process) && open == old(open) && history == old(history)
      ensures ok ==> old(process) == null && process == helper && open && |history| == 1
      ensures !ok && old(process) == null ==> !open
    {
      if process != null { return false; }
      if !started { return false; }
      process, open, read := helper, true, 0;
      assert history == [];
      var reply := Request(Open);
      return reply.Some?;
    }

    /** `call`: only the worker's own tools. */
    method CallTool(name: string, arguments: nat) returns (result: Option<Value>)
      requires Valid()
      modifies this`open, this`read, this`notified, this`history, process
      ensures Valid() && process == old(process)
      ensures name !in TOOLS || !old(open) ==> result == None && history == old(history) && open == old(open)
      ensures name in TOOLS && old(open) ==> history == old(history) + [Exchange(Call(name, arguments), result)] && (open <==> result.Some?)
    {
      if name !in TOOLS { return None; }
      result := Request(Call(name, arguments));
    }

    /** `__exit__`: whatever the helper answers to the close, it is dead afterwards. */
    method Exit()
      requires Valid()
      modifies this`open, this`read, this`notified, this`history, process
      ensures Valid() && process == old(process) && !open
      ensures old(open) ==> |history| == |old(history)| + 1 && history[..|old(history)|] == old(history)
      ensures !old(open) ==> history == old(history)
    {
      if open { var _ := Request(Close); }
      Terminate();
    }
  }

  /** In every reachable state of an open transport the reply pipe holds nothing but, perhaps, the
      last refusal of a helper that is dead: no reply to an earlier request can be read later. */
  lemma NothingIsLeftOver(mcp: MCP)
    requires mcp.Valid() && mcp.open
    ensures mcp.process != null
    ensures mcp.process.alive ==> mcp.read == |mcp.process.replies|
    ensures !mcp.process.alive ==> mcp.process.replies[mcp.read..] == [] || mcp.process.replies[mcp.read..] == [No]
  {
    var left := mcp.process.replies[mcp.read..];
    if |left| > 0 {
      assert left[0] == mcp.process.replies[mcp.read];
      assert mcp.process.replies[mcp.read].No?;
    }
  }

  /** The leftover refusal does occur: the helper answers the opening and then dies. */
  lemma ARefusalCanBeLeft()
    ensures exists requests, replies, history ::
              && Answers(requests, replies, false) && Paired(history, requests, replies) && Closes(history, true)
              && OnlyTools(requests) && |requests| == |history| <= |replies| && replies[|history|..] == [No]
  {
    var requests: seq<Request>, replies: seq<Reply> := [Open], [Yes(Value(0, 0)), No];
    var history: seq<Exchange> := [Exchange(Open, Some(Value(0, 0)))];
    assert Answers(requests, replies, false) && Paired(history, requests, replies) && Closes(history, true);
    assert replies[|history|..] == [No];
  }
}
