/** The three thread-local objects a handler may write: this_handler,
    this_session and this_server. */
module ThisState {
  import opened MsgPack

  /** Everything thread-local that a worker carries from one job to the next. */
  datatype Locals = Locals(
    error: Obj, resp: Obj, enabled: bool,
    exit: bool, session: int,
    stopping: bool)

  /** The state in which every job starts its handler. */
  function Cleared(session: int): Locals {
    Locals(Nil, Nil, true, false, session, false)
  }

  /** The markers that respond_error and respond throw to leave the handler. */
  datatype Marker = HandlerError | SpecialResponse

  class ThisHandler {
    var error: Obj
    var resp: Obj
    var enabled: bool

    constructor ()
      ensures error == Nil && resp == Nil && enabled
    {
      error, resp, enabled := Nil, Nil, true;
    }

    method Clear()
      modifies this
      ensures error == Nil && resp == Nil && enabled
    {
      resp := Nil;
      error := Nil;
      enabled := true;
    }

    method DisableResponse()
      modifies `enabled
      ensures !enabled
    {
      enabled := false;
    }

    method EnableResponse()
      modifies `enabled
      ensures enabled
    {
      enabled := true;
    }

    method RespondError(x: Obj) returns (thrown: Marker)
      modifies `error
      ensures error == x && thrown == HandlerError
    {
      error := x;
      thrown := HandlerError;
    }

    method Respond(x: Obj) returns (thrown: Marker)
      modifies `resp
      ensures resp == x && thrown == SpecialResponse
    {
      resp := x;
      thrown := SpecialResponse;
    }
  }

  class ThisSession {
    var exit: bool
    var id: int

    constructor ()
      ensures !exit && id == 0
    {
      exit, id := false, 0;
    }

    method PostExit()
      modifies `exit
      ensures exit
    {
      exit := true;
    }

    /** Clears the exit request; the id stays until the next SetId. */
    method Clear()
      modifies `exit
      ensures !exit
    {
      exit := false;
    }

    method SetId(session: int)
      modifies `id
      ensures id == session
    {
      id := session;
    }
  }

  class ThisServer {
    var stopping: bool

    constructor ()
      ensures !stopping
    {
      stopping := false;
    }

    method Stop()
      modifies this
      ensures stopping
    {
      stopping := true;
    }

    method CancelStop()
      modifies this
      ensures !stopping
    {
      stopping := false;
    }
  }

  /** A worker thread, seen through its thread-local objects. */
  class Worker {
    const handler: ThisHandler
    const session: ThisSession
    const server: ThisServer

    constructor ()
      ensures fresh(handler) && fresh(session) && fresh(server)
    {
      handler := new ThisHandler();
      session := new ThisSession();
      server := new ThisServer();
    }

    function View(): Locals
      reads handler, session, server
    {
      Locals(handler.error, handler.resp, handler.enabled, session.exit, session.id, server.stopping)
    }

    /** What a job does before it dispatches. */
    method Prepare(id: int)
      modifies handler, session, server
      ensures View() == Cleared(id)
    {
      handler.Clear();
      session.Clear();
      session.SetId(id);
      server.CancelStop();
    }

    /** The writes a handler made before it ended. */
    method Leave(l: Locals)
      modifies handler, session, server
      ensures View() == l
    {
      handler.error, handler.resp, handler.enabled := l.error, l.resp, l.enabled;
      session.exit, session.id := l.exit, l.session;
      server.stopping := l.stopping;
    }
  }
}
