/**
 A task's toolkit: `ai.run` with its checkpoint cache.

 The runner is a function of its inputs. The fingerprint covers some of them (`Parts`); the runner
 also sees others (`Surroundings`). The cache makes no difference to any sequence of calls exactly
 when a successful answer depends on the fingerprinted inputs alone.
 */
module Toolkit {
  import opened Domain
  import Text
  import opened CheckpointStore

  type Prompt = nat
  type Context = nat

  datatype Intensity = Low | Medium | High

  datatype AiRunOptions = AiRunOptions(
    tool: Option<Tool>,
    prompt: Prompt,
    intensity: Option<Intensity>,
    allowedTools: Option<seq<string>>,
    disallowedTools: Option<seq<string>>,
    timeoutMs: Option<nat>,
    outputSchema: Option<string>,
    stepKey: Option<StepKey>)

  datatype Workspace = Workspace(path: string, installationToken: string)

  // The inputs the fingerprint is computed from.
  datatype Parts = Parts(
    promptText: string,
    tool: Tool,
    intensity: Option<Intensity>,
    allowedTools: Option<seq<string>>,
    disallowedTools: Option<seq<string>>,
    outputSchema: Option<string>)

  // The inputs it leaves out.
  datatype Surroundings = Surroundings(workspacePath: string, installationToken: string, timeoutMs: Option<nat>)

  datatype Reply =
    | Done(stdout: string)
    | Limited(tool: Tool)
    | Errored(stdout: string, stderr: string)
    | Threw(error: string)

  datatype AiRunResult =
    | Succeeded(stdout: string)
    | RateLimited(tool: Tool)
    | NoWorkspace
    | NoContext
    | ToolRequired
    | ToolNotDeclared(tool: Tool)
    | ToolFailed(errorSummary: string)
    | Rejected(error: string)

  datatype Wiring = Wiring(
    declared: seq<Tool>,
    hasStore: bool,
    render: (Prompt, Context, string) -> string,
    fingerprint: Parts -> Digest,
    filename: StepKey -> FileName,
    runner: (Parts, Surroundings) -> Reply)

  datatype Active = Active(handle: nat, workspace: Workspace)

  datatype Invocation = Invocation(parts: Parts, surroundings: Surroundings)

  // What the toolkit remembers, what the store holds for its task, and what the runner was asked.
  datatype Session = Session(
    active: Option<Active>,
    context: Option<Context>,
    handles: nat,
    entries: map<FileName, Entry>,
    invoked: seq<Invocation>)

  function ResolveTool(declared: seq<Tool>, opts: AiRunOptions): Option<Tool> {
    if opts.tool.Some? then opts.tool else if |declared| == 1 then Some(declared[0]) else None
  }

  function PartsOf(w: Wiring, ws: Workspace, ctx: Context, opts: AiRunOptions, tool: Tool): Parts {
    Parts(w.render(opts.prompt, ctx, ws.path), tool, opts.intensity, opts.allowedTools, opts.disallowedTools,
          opts.outputSchema)
  }

  function SurroundingsOf(ws: Workspace, opts: AiRunOptions): Surroundings {
    Surroundings(ws.path, ws.installationToken, opts.timeoutMs)
  }

  function FailureSummary(stdout: string, stderr: string): string {
    var summary := Text.Trim(if stderr != "" then stderr else stdout);
    if summary == "" then "tool execution failed" else summary
  }

  function ResultOf(reply: Reply): AiRunResult {
    match reply
    case Done(stdout) => AiRunResult.Succeeded(stdout)
    case Limited(tool) => RateLimited(tool)
    case Errored(stdout, stderr) => ToolFailed(FailureSummary(stdout, stderr))
    case Threw(error) => Rejected(error)
  }

  predicate CacheActive(w: Wiring, opts: AiRunOptions) {
    w.hasStore && opts.stepKey.Some?
  }

  // The stored answer, if the call may be answered from the store.
  function Hit(w: Wiring, entries: map<FileName, Entry>, opts: AiRunOptions, parts: Parts): Option<string> {
    if !CacheActive(w, opts) then None
    else match Found(entries, w.filename(opts.stepKey.value))
      case Some(entry) =>
        if entry.fingerprint == w.fingerprint(parts) && entry.tool == parts.tool then Some(entry.stdout) else None
      case None => None
  }

  function Remembered(w: Wiring, entries: map<FileName, Entry>, opts: AiRunOptions, parts: Parts, reply: Reply)
    : map<FileName, Entry>
  {
    if CacheActive(w, opts) && reply.Done? then
      entries[w.filename(opts.stepKey.value) :=
        Entry(opts.stepKey.value, w.fingerprint(parts), parts.tool, reply.stdout)]
    else entries
  }

  // A call whose inputs are settled.
  function Called(w: Wiring, s: Session, opts: AiRunOptions, parts: Parts, around: Surroundings)
    : (AiRunResult, Session)
  {
    match Hit(w, s.entries, opts, parts)
    case Some(stdout) => (AiRunResult.Succeeded(stdout), s)
    case None =>
      var reply := w.runner(parts, around);
      (ResultOf(reply),
       s.(entries := Remembered(w, s.entries, opts, parts, reply), invoked := s.invoked + [Invocation(parts, around)]))
  }

  function Ran(w: Wiring, s: Session, opts: AiRunOptions): (AiRunResult, Session) {
    if s.active.None? then (NoWorkspace, s)
    else if s.context.None? then (NoContext, s)
    else match ResolveTool(w.declared, opts)
      case None => (ToolRequired, s)
      case Some(tool) =>
        if tool !in w.declared then (ToolNotDeclared(tool), s)
        else
          var ws := s.active.value.workspace;
          Called(w, s, opts, PartsOf(w, ws, s.context.value, opts, tool), SurroundingsOf(ws, opts))
  }

  /* ---- One call, option by option ---- */

  // The call asks the runner for just what the options say, in the active workspace, with the prompt
  // rendered from the cached context.
  predicate AsksAsTold(w: Wiring, s: Session, opts: AiRunOptions, call: Invocation) {
    && s.active.Some? && s.context.Some?
    && (opts.tool.Some? ==> call.parts.tool == opts.tool.value)
    && (opts.tool.None? ==> w.declared == [call.parts.tool])
    && call.parts.tool in w.declared
    && call.parts.promptText == w.render(opts.prompt, s.context.value, s.active.value.workspace.path)
    && call.parts.intensity == opts.intensity && call.parts.outputSchema == opts.outputSchema
    && call.parts.allowedTools == opts.allowedTools && call.parts.disallowedTools == opts.disallowedTools
    && call.surroundings.workspacePath == s.active.value.workspace.path
    && call.surroundings.installationToken == s.active.value.workspace.installationToken
    && call.surroundings.timeoutMs == opts.timeoutMs
  }

  // The result says what the runner replied: the text, the tool that is limited, or what went wrong, which
  // is the error output, or the output if there is none, trimmed.
  predicate Tells(reply: Reply, r: AiRunResult) {
    match reply
    case Done(stdout) => r == AiRunResult.Succeeded(stdout)
    case Limited(tool) => r == RateLimited(tool)
    case Errored(stdout, stderr) =>
      && r.ToolFailed?
      && (Text.AllSpace(stderr) && stderr != "" ==> r.errorSummary == "tool execution failed")
      && (!Text.AllSpace(stderr) ==> r.errorSummary == Text.Trim(stderr))
      && (stderr == "" && Text.AllSpace(stdout) ==> r.errorSummary == "tool execution failed")
      && (stderr == "" && !Text.AllSpace(stdout) ==> r.errorSummary == Text.Trim(stdout))
    case Threw(error) => r == Rejected(error)
  }

  // A call adds no invocation or exactly one, which asks for just what its options say and whose reply the
  // result tells.
  predicate AsksOnceAsTold(w: Wiring, s: Session, opts: AiRunOptions, r: AiRunResult, after: seq<Invocation>) {
    after != s.invoked ==>
      && |after| == |s.invoked| + 1 && after[..|s.invoked|] == s.invoked
      && var call := after[|s.invoked|];
         AsksAsTold(w, s, opts, call) && Tells(w.runner(call.parts, call.surroundings), r)
  }

  // A call that asks nothing: something is missing, in this order, or the store has the answer, given
  // for the same fingerprinted inputs.
  predicate AnswersUnasked(w: Wiring, s: Session, opts: AiRunOptions, r: AiRunResult) {
    if s.active.None? then r == NoWorkspace
    else if s.context.None? then r == NoContext
    else if opts.tool.None? && |w.declared| != 1 then r == ToolRequired
    else if opts.tool.Some? && opts.tool.value !in w.declared then r == ToolNotDeclared(opts.tool.value)
    else
      && w.hasStore && opts.stepKey.Some? && w.filename(opts.stepKey.value) in s.entries
      && var entry, ws := s.entries[w.filename(opts.stepKey.value)], s.active.value.workspace;
         && entry.tool == (if opts.tool.Some? then opts.tool.value else w.declared[0])
         && entry.fingerprint == w.fingerprint(
              Parts(promptText := w.render(opts.prompt, s.context.value, ws.path), tool := entry.tool,
                    intensity := opts.intensity, allowedTools := opts.allowedTools,
                    disallowedTools := opts.disallowedTools, outputSchema := opts.outputSchema))
         && r == AiRunResult.Succeeded(entry.stdout)
  }

  // Only a keyed call that succeeded is stored, under its key's file name.
  function StoredAfter(w: Wiring, entries: map<FileName, Entry>, opts: AiRunOptions, call: Invocation)
    : map<FileName, Entry>
  {
    match (w.hasStore, opts.stepKey, w.runner(call.parts, call.surroundings))
    case (true, Some(key), Done(stdout)) =>
      entries[w.filename(key) := Entry(key, w.fingerprint(call.parts), call.parts.tool, stdout)]
    case _ => entries
  }

  lemma RanAsTold(w: Wiring, s: Session, opts: AiRunOptions)
    ensures var (r, s') := Ran(w, s, opts);
            && AsksOnceAsTold(w, s, opts, r, s'.invoked)
            && (s'.invoked == s.invoked ==> AnswersUnasked(w, s, opts, r) && s' == s)
            && (s'.invoked != s.invoked ==>
                  s' == s.(invoked := s'.invoked, entries := s'.entries)
                  && s'.entries == StoredAfter(w, s.entries, opts, s'.invoked[|s.invoked|]))
  {
    var (r, s') := Ran(w, s, opts);
    if s'.invoked != s.invoked {
      var call := s'.invoked[|s.invoked|];
      assert s'.invoked == s.invoked + [call];
      TellsReply(w.runner(call.parts, call.surroundings));
    }
  }

  lemma TellsReply(reply: Reply)
    ensures Tells(reply, ResultOf(reply))
  {
    if reply.Errored? {
      Text.TrimsToNothing(reply.stderr);
      Text.TrimsToNothing(reply.stdout);
    }
  }

  class ToolkitImpl {
    const wiring: Wiring
    const task: TaskId
    const checkpoints: FileCheckpointStore
    var active: Option<Active>
    var cachedContext: Option<Context>
    var handles: nat
    var invoked: seq<Invocation>

    constructor (wiring: Wiring, task: TaskId, checkpoints: FileCheckpointStore)
      requires wiring.filename == checkpoints.filename
      ensures this.wiring == wiring && this.task == task && this.checkpoints == checkpoints
      ensures View() == Session(None, None, 0, Entries(checkpoints.dirs, task), [])
    {
      this.wiring, this.task, this.checkpoints := wiring, task, checkpoints;
      active, cachedContext, handles, invoked := None, None, 0, [];
    }

    function View(): Session
      reads this, checkpoints
    {
      Session(active, cachedContext, handles, Entries(checkpoints.dirs, task), invoked)
    }

    method Prepare(workspace: Workspace) returns (handle: nat)
      modifies this`active, this`handles
      ensures View() == Stepped(wiring, old(View()), Op.Prepare(workspace)).1
      ensures active == Some(Active(handle, workspace)) && handle == old(handles) < handles
    {
      handle := handles;
      active := Some(Active(handle, workspace));
      handles := handles + 1;
    }

    // Disposing of a workspace forgets it, unless a later one has taken its place.
    method Dispose(handle: nat)
      modifies this`active
      ensures View() == Stepped(wiring, old(View()), Op.Dispose(handle)).1
      ensures active.Some? ==> active == old(active) && active.value.handle != handle
      ensures old(active).Some? && old(active).value.handle != handle ==> active == old(active)
    {
      if active.Some? && active.value.handle == handle {
        active := None;
      }
    }

    // The first context fetched is kept for good; `answer` is what GitHub would say now.
    method FetchContext(answer: Context) returns (context: Context)
      modifies this`cachedContext
      ensures View() == Stepped(wiring, old(View()), Op.FetchContext(answer)).1
      ensures cachedContext == Some(context)
      ensures context == if old(cachedContext).Some? then old(cachedContext).value else answer
    {
      if cachedContext.Some? {
        return cachedContext.value;
      }
      cachedContext := Some(answer);
      context := answer;
    }

    method AiRun(opts: AiRunOptions) returns (r: AiRunResult)
      requires wiring.filename == checkpoints.filename
      modifies this`invoked, checkpoints
      ensures (r, View()) == Ran(wiring, old(View()), opts)
      ensures AsksOnceAsTold(wiring, old(View()), opts, r, invoked)
      ensures invoked == old(invoked) ==> AnswersUnasked(wiring, old(View()), opts, r)
      ensures forall t :: t != task ==> Entries(checkpoints.dirs, t) == old(Entries(checkpoints.dirs, t))
    {
      RanAsTold(wiring, View(), opts);
      if active.None? {
        return NoWorkspace;
      }
      if cachedContext.None? {
        return NoContext;
      }
      var resolved := ResolveTool(wiring.declared, opts);
      if resolved.None? {
        return ToolRequired;
      }
      var tool := resolved.value;
      if tool !in wiring.declared {
        return ToolNotDeclared(tool);
      }
      var workspace := active.value.workspace;
      var parts := PartsOf(wiring, workspace, cachedContext.value, opts, tool);
      var around := SurroundingsOf(workspace, opts);
      var cacheActive := wiring.hasStore && opts.stepKey.Some?;
      if cacheActive {
        var hit := checkpoints.Read(task, opts.stepKey.value);
        if hit.Some? && hit.value.fingerprint == wiring.fingerprint(parts) && hit.value.tool == tool {
          return AiRunResult.Succeeded(hit.value.stdout);
        }
      }
      var reply := wiring.runner(parts, around);
      invoked := invoked + [Invocation(parts, around)];
      if reply.Done? && cacheActive {
        checkpoints.Write(task, Entry(opts.stepKey.value, wiring.fingerprint(parts), tool, reply.stdout));
      }
      r := ResultOf(reply);
    }
  }

  /* ---- Sequences of calls, over retries of the task ---- */

  datatype Op =
    | Prepare(workspace: Workspace)
    | Dispose(handle: nat)
    | FetchContext(answer: Context)
    | AiRun(opts: AiRunOptions)
    | Retry                        // a new toolkit for the same task
    | Lose(names: set<FileName>)   // files dropped, quarantined or of another version

  function Stepped(w: Wiring, s: Session, op: Op): (seq<AiRunResult>, Session) {
    match op
    case Prepare(ws) => ([], s.(active := Some(Active(s.handles, ws)), handles := s.handles + 1))
    case Dispose(h) => ([], if s.active.Some? && s.active.value.handle == h then s.(active := None) else s)
    case FetchContext(answer) => ([], if s.context.Some? then s else s.(context := Some(answer)))
    case AiRun(opts) => var (r, s') := Ran(w, s, opts); ([r], s')
    case Retry => ([], s.(active := None, context := None))
    case Lose(names) => ([], s.(entries := s.entries - names))
  }

  function Results(w: Wiring, s: Session, ops: seq<Op>): seq<AiRunResult>
    decreases ops
  {
    if ops == [] then [] else Stepped(w, s, ops[0]).0 + Results(w, Stepped(w, s, ops[0]).1, ops[1..])
  }

  function AfterAll(w: Wiring, s: Session, ops: seq<Op>): Session
    decreases ops
  {
    if ops == [] then s else AfterAll(w, Stepped(w, s, ops[0]).1, ops[1..])
  }

  const Fresh := Session(None, None, 0, map[], [])

  function Uncached(w: Wiring): Wiring {
    w.(hasStore := false)
  }

  ghost predicate Transparent(w: Wiring) {
    forall ops :: Results(w, Fresh, ops) == Results(Uncached(w), Fresh, ops)
  }

  // The inputs of one call that reaches the runner.
  datatype Input = Input(workspace: Workspace, context: Context, opts: AiRunOptions)

  predicate Reaches(w: Wiring, i: Input) {
    ResolveTool(w.declared, i.opts).Some? && ResolveTool(w.declared, i.opts).value in w.declared
  }

  function InputParts(w: Wiring, i: Input): Parts
    requires Reaches(w, i)
  {
    PartsOf(w, i.workspace, i.context, i.opts, ResolveTool(w.declared, i.opts).value)
  }

  function Answer(w: Wiring, i: Input): Reply
    requires Reaches(w, i)
  {
    w.runner(InputParts(w, i), SurroundingsOf(i.workspace, i.opts))
  }

  // A successful answer depends on the fingerprinted inputs alone.
  ghost predicate Determined(w: Wiring) {
    forall i, j :: Reaches(w, i) && Reaches(w, j) && InputParts(w, i) == InputParts(w, j) && Answer(w, i).Done? ==>
      Answer(w, j) == Answer(w, i)
  }

  ghost predicate InjectiveFingerprint(w: Wiring) {
    forall p, q :: w.fingerprint(p) == w.fingerprint(q) ==> p == q
  }

  // The input's call earns the entry.
  predicate Earns(w: Wiring, i: Input, entry: Entry) {
    Reaches(w, i) && w.fingerprint(InputParts(w, i)) == entry.fingerprint && Answer(w, i) == Done(entry.stdout)
  }

  ghost predicate Earned(w: Wiring, entry: Entry) {
    exists i :: Earns(w, i, entry)
  }

  ghost predicate AllEarned(w: Wiring, entries: map<FileName, Entry>) {
    forall f :: f in entries ==> Earned(w, entries[f])
  }

  // The sessions with and without the store differ in nothing that later calls can show.
  ghost predicate Alike(w: Wiring, s: Session, u: Session) {
    s.active == u.active && s.context == u.context && s.handles == u.handles && AllEarned(w, s.entries)
  }

  lemma CalledAlike(w: Wiring, s: Session, u: Session, i: Input)
    requires Determined(w) && InjectiveFingerprint(w) && AllEarned(w, s.entries) && Reaches(w, i)
    ensures var parts, around := InputParts(w, i), SurroundingsOf(i.workspace, i.opts);
            var got, plain := Called(w, s, i.opts, parts, around), Called(Uncached(w), u, i.opts, parts, around);
            got.0 == plain.0 && AllEarned(w, got.1.entries)
  {
    var parts, around := InputParts(w, i), SurroundingsOf(i.workspace, i.opts);
    if Hit(w, s.entries, i.opts, parts).Some? {
      var entry := s.entries[w.filename(i.opts.stepKey.value)];
      assert Earned(w, entry);
      var j :| Earns(w, j, entry);
      assert InputParts(w, j) == parts;
      assert Answer(w, i) == Answer(w, j);
    } else if Answer(w, i).Done? && CacheActive(w, i.opts) {
      var f := w.filename(i.opts.stepKey.value);
      var entries := Called(w, s, i.opts, parts, around).1.entries;
      assert Earns(w, i, entries[f]);
      assert forall g :: g in entries && g != f ==> g in s.entries && entries[g] == s.entries[g];
    }
  }

  lemma SteppedAlike(w: Wiring, s: Session, u: Session, op: Op)
    requires Determined(w) && InjectiveFingerprint(w) && Alike(w, s, u)
    ensures Stepped(w, s, op).0 == Stepped(Uncached(w), u, op).0
    ensures Alike(w, Stepped(w, s, op).1, Stepped(Uncached(w), u, op).1)
  {
    if op.AiRun? && s.active.Some? && s.context.Some? {
      var i := Input(s.active.value.workspace, s.context.value, op.opts);
      if Reaches(w, i) {
        CalledAlike(w, s, u, i);
      }
    }
  }

  lemma {:induction false} ResultsAlike(w: Wiring, s: Session, u: Session, ops: seq<Op>)
    requires Determined(w) && InjectiveFingerprint(w) && Alike(w, s, u)
    ensures Results(w, s, ops) == Results(Uncached(w), u, ops)
    decreases ops
  {
    if ops != [] {
      SteppedAlike(w, s, u, ops[0]);
      ResultsAlike(w, Stepped(w, s, ops[0]).1, Stepped(Uncached(w), u, ops[0]).1, ops[1..]);
    }
  }

  function Keyed(opts: AiRunOptions): AiRunOptions {
    opts.(stepKey := Some(0))
  }

  // Two tries at one step, the second with the surroundings changed.
  function TwoTries(i: Input, j: Input): seq<Op> {
    [Prepare(i.workspace), FetchContext(i.context), AiRun(Keyed(i.opts)), Retry,
     Prepare(j.workspace), FetchContext(j.context), AiRun(Keyed(j.opts))]
  }

  lemma OneTry(w: Wiring, s: Session, i: Input)
    requires Reaches(w, i) && s.active.None? && s.context.None?
    ensures var ready := s.(active := Some(Active(s.handles, i.workspace)), handles := s.handles + 1,
                            context := Some(i.context));
            Ran(w, ready, Keyed(i.opts))
              == Called(w, ready, Keyed(i.opts), InputParts(w, i), SurroundingsOf(i.workspace, i.opts))
  {
  }

  lemma ResultsOfTry(w: Wiring, s: Session, i: Input, more: seq<Op>)
    requires Reaches(w, i) && s.active.None? && s.context.None?
    ensures var ready := s.(active := Some(Active(s.handles, i.workspace)), handles := s.handles + 1,
                            context := Some(i.context));
            var got := Called(w, ready, Keyed(i.opts), InputParts(w, i), SurroundingsOf(i.workspace, i.opts));
            Results(w, s, [Prepare(i.workspace), FetchContext(i.context), AiRun(Keyed(i.opts))] + more)
              == [got.0] + Results(w, got.1, more)
  {
    var ops := [Prepare(i.workspace), FetchContext(i.context), AiRun(Keyed(i.opts))] + more;
    OneTry(w, s, i);
    var s1 := Stepped(w, s, ops[0]).1;
    var s2 := Stepped(w, s1, ops[1]).1;
    assert Results(w, s, ops) == Results(w, s1, ops[1..]);
    assert ops[1..] == [FetchContext(i.context), AiRun(Keyed(i.opts))] + more;
    assert ops[1..][1..] == [AiRun(Keyed(i.opts))] + more;
    assert Results(w, s1, ops[1..]) == Results(w, s2, ops[1..][1..]);
    assert ops[1..][1..][1..] == more;
  }

  lemma TwoTriesTell(w: Wiring, i: Input, j: Input)
    requires w.hasStore && Reaches(w, i) && Reaches(w, j)
    requires InputParts(w, i) == InputParts(w, j) && Answer(w, i).Done? && Answer(w, j) != Answer(w, i)
    ensures Results(w, Fresh, TwoTries(i, j)) != Results(Uncached(w), Fresh, TwoTries(i, j))
  {
    var a := SecondAnswer(w, i, j);
    var b := SecondAnswer(Uncached(w), i, j);
  }

  // What the two tries answer.
  lemma SecondAnswer(w: Wiring, i: Input, j: Input) returns (r: AiRunResult)
    requires Reaches(w, i) && Reaches(w, j) && InputParts(w, i) == InputParts(w, j) && Answer(w, i).Done?
    ensures Results(w, Fresh, TwoTries(i, j)) == [ResultOf(Answer(w, i)), r]
    ensures r == if w.hasStore then ResultOf(Answer(w, i)) else ResultOf(Answer(w, j))
  {
    var second := [Prepare(j.workspace), FetchContext(j.context), AiRun(Keyed(j.opts))];
    assert TwoTries(i, j) == [Prepare(i.workspace), FetchContext(i.context), AiRun(Keyed(i.opts))] + ([Retry] + second);
    assert ([Retry] + second)[1..] == second + [];
    ResultsOfTry(w, Fresh, i, [Retry] + second);
    var ready := Fresh.(active := Some(Active(0, i.workspace)), handles := 1, context := Some(i.context));
    var s1 := Called(w, ready, Keyed(i.opts), InputParts(w, i), SurroundingsOf(i.workspace, i.opts)).1;
    var s2 := s1.(active := None, context := None);
    ResultsOfTry(w, s2, j, []);
    var again := s2.(active := Some(Active(s2.handles, j.workspace)), handles := s2.handles + 1,
                     context := Some(j.context));
    r := Called(w, again, Keyed(j.opts), InputParts(w, j), SurroundingsOf(j.workspace, j.opts)).0;
  }

  // The cache is transparent to every sequence of calls, whatever the file names collide on and
  // whatever is lost, exactly when a successful answer depends on the fingerprinted inputs alone.
  lemma TransparentIffDetermined(w: Wiring)
    requires w.hasStore && InjectiveFingerprint(w)
    ensures Transparent(w) <==> Determined(w)
  {
    if Determined(w) {
      forall ops ensures Results(w, Fresh, ops) == Results(Uncached(w), Fresh, ops) {
        ResultsAlike(w, Fresh, Fresh, ops);
      }
    } else {
      var i, j :| Reaches(w, i) && Reaches(w, j) && InputParts(w, i) == InputParts(w, j) && Answer(w, i).Done?
                  && Answer(w, j) != Answer(w, i);
      TwoTriesTell(w, i, j);
    }
  }

  /* ---- Who is asked ---- */

  lemma {:induction false} OnlyDeclaredToolsRun(w: Wiring, s: Session, ops: seq<Op>)
    requires forall call :: call in s.invoked ==> call.parts.tool in w.declared
    ensures forall call :: call in AfterAll(w, s, ops).invoked ==> call.parts.tool in w.declared
    decreases ops
  {
    if ops != [] {
      var s' := Stepped(w, s, ops[0]).1;
      assert s'.invoked == s.invoked
             || (|s'.invoked| == |s.invoked| + 1 && s'.invoked[..|s.invoked|] == s.invoked
                 && s'.invoked[|s.invoked|].parts.tool in w.declared);
      OnlyDeclaredToolsRun(w, s', ops[1..]);
    }
  }

  /* ---- A step that succeeded is not run again ---- */

  // The op neither loses file `f` nor makes a cached call under it.
  predicate Spares(w: Wiring, op: Op, f: FileName) {
    match op
    case AiRun(opts) => CacheActive(w, opts) ==> w.filename(opts.stepKey.value) != f
    case Lose(names) => f !in names
    case _ => true
  }

  lemma {:induction false} EntryStays(w: Wiring, s: Session, ops: seq<Op>, f: FileName)
    requires forall op :: op in ops ==> Spares(w, op, f)
    ensures Found(AfterAll(w, s, ops).entries, f) == Found(s.entries, f)
    decreases ops
  {
    if ops != [] {
      assert Spares(w, ops[0], f);
      EntryStays(w, Stepped(w, s, ops[0]).1, ops[1..], f);
    }
  }

  // After a keyed call has succeeded, and through any retries and other calls that leave its file alone,
  // a call under that file with the same fingerprinted inputs returns the same text without a run.
  lemma SucceededStepIsReused(w: Wiring, s: Session, i: Input, ops: seq<Op>, j: Input)
    requires Reaches(w, i) && Reaches(w, j) && InputParts(w, i) == InputParts(w, j)
    requires CacheActive(w, i.opts) && CacheActive(w, j.opts)
    requires w.filename(i.opts.stepKey.value) == w.filename(j.opts.stepKey.value)
    requires forall op :: op in ops ==> Spares(w, op, w.filename(i.opts.stepKey.value))
    ensures var first := Called(w, s, i.opts, InputParts(w, i), SurroundingsOf(i.workspace, i.opts));
            var later := AfterAll(w, first.1, ops);
            first.0.Succeeded? ==>
              Called(w, later, j.opts, InputParts(w, j), SurroundingsOf(j.workspace, j.opts)) == (first.0, later)
  {
    var first := Called(w, s, i.opts, InputParts(w, i), SurroundingsOf(i.workspace, i.opts));
    EntryStays(w, first.1, ops, w.filename(i.opts.stepKey.value));
  }
}
