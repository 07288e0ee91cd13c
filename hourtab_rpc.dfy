/** The RPC handlers of hourtab/hourtab_rpc.go. Each handler writes its result
    through a reply pointer; the pointer's content before the call is a
    parameter and the content after it is a result, so that "the reply is
    left alone" can be stated. */
module HourtabRpc {
  import opened Errors
  import opened Projects
  import opened Ipc
  import opened Hourtab

  const NotFound: string := " not found"

  class RPCSession {
    const session: Session

    constructor (s: Session)
      ensures session == s
    {
      session := s;
    }

    /** `GetAllProjects`: the reply is the session's project list; never an error. */
    method GetAllProjects(none: NilArgument) returns (reply: seq<Project>, err: Option<Error>)
      ensures reply == session.projects && err == None
    {
      reply := session.GetAllProjects();
      err := None;
    }

    /** `GetProject`: "<path> not found", with the reply untouched, exactly
        when no project owns the path; otherwise the owning project and no
        error. */
    method GetProject(absolutePath: string, reply0: Option<Project>)
      returns (reply: Option<Project>, err: Option<Error>)
      ensures err.Some? <==> OwnerIndex(session.projects, absolutePath).None?
      ensures err.Some? ==> err.value == Message(absolutePath + NotFound) && reply == reply0
      ensures err.None? ==> reply == Some(session.projects[OwnerIndex(session.projects, absolutePath).value])
    {
      var p := session.GetProject(absolutePath);
      if p.None? {
        return reply0, Some(Message(absolutePath + NotFound));
      }
      reply := p;
      err := None;
    }

    /** `AddProject`: the session's error unchanged, with the reply untouched;
        on success the reply is set to `Nil`. */
    method AddProject(p: Project, none0: Option<NilArgument>, subscribe: Outcome)
      returns (none: Option<NilArgument>, err: Outcome)
      modifies session
      ensures subscribe.Fail? ==>
        && err == Fail(Wrapped("Failed to add " + p.gitOrigin, subscribe.error)) && none == none0
        && session.projects == old(session.projects) && session.watched == old(session.watched)
      ensures subscribe.Ok? ==>
        && err == Ok && none == Some(Nil)
        && session.projects == old(session.projects) + [p]
        && session.watched == old(session.watched) + [Recursive(p.path)]
    {
      err := session.AddProject(p, subscribe);
      if err.Fail? {
        return none0, err;
      }
      none := Some(Nil);
    }

    /** `UntrackProject`: the reply is the session's removed flag; never an error. */
    method UntrackProject(path: string) returns (deleted: bool, err: Option<Error>)
      modifies session`projects
      ensures err == None
      ensures deleted <==> exists j :: 0 <= j < |old(session.projects)| && old(session.projects)[j].path == path
      ensures !deleted ==> session.projects == old(session.projects)
      ensures deleted ==>
        session.projects == SwapRemove(old(session.projects), ExactIndex(old(session.projects), path).value)
    {
      deleted := session.UntrackProject(path);
      err := None;
    }
  }
}
