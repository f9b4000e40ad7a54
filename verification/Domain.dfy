/**
 The vocabulary every other module shares: task records, statuses, sources and tools.

 Task ids, instruction ids, owners and repository names are opaque in the program and are
 numbered here. Times are integer milliseconds.
 */
module Domain {

  datatype Option<+T> = None | Some(value: T)

  type TaskId = nat
  type Instruction = nat

  // "github" is the one tool the scheduler knows by name.
  datatype Tool = GitHub | Named(name: nat)

  datatype Status = Queued | Running | Succeeded | Failed | Superseded

  // The order in which a listing reads the status directories.
  const TASK_STATUSES: seq<Status> := [Queued, Running, Succeeded, Failed, Superseded]

  predicate Terminal(st: Status) {
    st in {Succeeded, Failed, Superseded}
  }

  datatype SourceKind = Issue | PullRequest

  datatype Source = Source(owner: nat, repo: nat, kind: SourceKind, number: nat)

  datatype Task = Task(
    id: TaskId,
    source: Source,
    instruction: Instruction,
    status: Status,
    createdAt: int,
    startedAt: Option<int>,
    finishedAt: Option<int>,
    errorSummary: Option<string>,
    supersededBy: Option<TaskId>)

  // The tools a strategy declares, per instruction id, as in `policies.uses`.
  type Uses = map<Instruction, seq<Tool>>

  function ToolSet(tools: seq<Tool>): set<Tool> {
    set t | t in tools
  }

  function Declared(uses: Uses, instruction: Instruction): seq<Tool> {
    if instruction in uses then uses[instruction] else []
  }

  function ToolsFor(uses: Uses, task: Task): set<Tool> {
    ToolSet(Declared(uses, task.instruction))
  }
}
