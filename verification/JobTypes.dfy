/** The job definition as written by the user and as resolved for execution. */
module JobTypes {
  import opened Wrappers

  datatype ParamDefinition = ParamDefinition(name: string, default: Option<string>, required: bool)

  datatype NodeTarget = NodeTarget(agent: Option<string>, labels: seq<string>)

  datatype NodeOutput = NodeOutput(path: string, required: Option<bool>)

  datatype NodeDefinition = NodeDefinition(
    id: string,
    name: Option<string>,
    program: string,
    args: Option<seq<string>>,
    workingDir: Option<string>,
    dependsOn: Option<seq<string>>,
    env: Option<map<string, string>>,
    timeoutSec: Option<nat>,
    retry: Option<nat>,
    outputs: Option<seq<NodeOutput>>,
    target: Option<NodeTarget>,
    secrets: Option<seq<string>>)
  {
    function Deps(): (deps: seq<string>)
      ensures dependsOn == Some(deps) || (dependsOn.None? && deps == [])
    {
      dependsOn.GetOr([])
    }
  }

  datatype JobDefaults = JobDefaults(
    workingDir: Option<string>,
    timeoutSec: Option<nat>,
    retry: Option<nat>,
    env: Option<map<string, string>>,
    target: Option<NodeTarget>)

  datatype JobDefinition = JobDefinition(
    version: nat,
    id: string,
    name: string,
    defaults: Option<JobDefaults>,
    params: Option<seq<ParamDefinition>>,
    nodes: seq<NodeDefinition>)

  datatype ResolvedNodeOutput = ResolvedNodeOutput(path: string, required: bool)

  datatype ResolvedNode = ResolvedNode(
    id: string,
    name: string,
    program: string,
    args: seq<string>,
    workingDir: string,
    dependsOn: seq<string>,
    env: map<string, string>,
    timeoutSec: nat,
    retry: nat,
    outputs: seq<ResolvedNodeOutput>,
    target: Option<NodeTarget>,
    secrets: seq<string>)

  datatype ResolvedJob = ResolvedJob(
    id: string,
    name: string,
    workingDir: string,
    params: seq<ParamDefinition>,
    nodes: seq<ResolvedNode>)
}
