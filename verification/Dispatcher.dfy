/** Selecting, checking and running a bound function, and what becomes of every
    way it can end. */
module Dispatching {
  import opened MsgPack
  import opened Messages
  import opened ThisState
  import opened AsyncWriting

  /** Whatever else a handler may read when it runs (its captures, the clock). */
  type World = int

  datatype End =
    | Returns(value: Obj)
    | ThrowsClientError
    | ThrowsException
    | ThrowsMarker(marker: Marker)
    | ThrowsOther

  datatype Run = Run(end: End, locals: Locals)

  /** A user function as bind sees it: its parameter count, which argument lists
      convert to its parameter types, its effect, and whether it returns void. */
  datatype Function = Function(
    arity: nat,
    accepts: seq<Value> -> bool,
    body: (World, Locals, seq<Value>) -> Run,
    isVoid: bool)

  type Functions = map<Text, Function>

  /** The texts of the error messages, kept as one tag each. */
  datatype ErrorTag = ClientErrorTag | ExceptionTag | UnknownTag | NotFoundTag

  function ErrorText(tag: ErrorTag): Obj {
    match tag
    case ClientErrorTag => Str([1])
    case ExceptionTag => Str([2])
    case UnknownTag => Str([3])
    case NotFoundTag => Str([4])
  }

  lemma TagsDiffer(a: ErrorTag, b: ErrorTag)
    ensures ErrorText(a) == ErrorText(b) <==> a == b
    ensures ErrorText(a).Str?
  {
  }

  /** The adaptor that bind stores: check the count, convert, apply, wrap. The
      zero-argument forms skip the conversion. */
  function Adapt(f: Function, args: Obj, world: World, locals: Locals): Run {
    if ArraySize(args) != f.arity then Run(ThrowsClientError, locals)
    else if f.arity > 0 && !(args.Arr? && f.accepts(args.items)) then Run(ThrowsException, locals)
    else
      var run := f.body(world, locals, if args.Arr? then args.items else []);
      if f.isVoid && run.end.Returns? then Run(Returns(Nil), run.locals) else run
  }

  /** Escapes is an exception that leaves dispatch. */
  datatype Dispatched = Escapes | Answers(answer: Answer, locals: Locals)

  function Error(id: Int32, tag: ErrorTag, locals: Locals): Dispatched {
    Answers(Answer(ToUint32(id), Some(ErrorText(tag)), None, false), locals)
  }

  /** Markers only end the handler; the code then runs on into the message for
      an unknown function. */
  function DispatchCall(funcs: Functions, suppress: bool, id: Int32, name: Text, args: Obj,
                        world: World, locals: Locals): Dispatched
  {
    if name in funcs then
      var run := Adapt(funcs[name], args, world, locals);
      match run.end
      case Returns(v) => Answers(Answer(ToUint32(id), None, Some(v), false), run.locals)
      case ThrowsClientError => Error(id, ClientErrorTag, run.locals)
      case ThrowsException => if suppress then Error(id, ExceptionTag, run.locals) else Escapes
      case ThrowsMarker(_) => Error(id, NotFoundTag, run.locals)
      case ThrowsOther => if suppress then Error(id, UnknownTag, run.locals) else Escapes
    else Error(id, NotFoundTag, locals)
  }

  function DispatchNotification(funcs: Functions, suppress: bool, name: Text, args: Obj,
                                world: World, locals: Locals): Dispatched
  {
    if name in funcs then
      var run := Adapt(funcs[name], args, world, locals);
      if run.end.Returns? || run.end.ThrowsMarker? || suppress then Answers(EMPTY_ANSWER, run.locals)
      else Escapes
    else Answers(EMPTY_ANSWER, locals)
  }

  /** By the element count alone; converting a message of the wrong shape throws
      outside every handler. */
  function Dispatch(funcs: Functions, suppress: bool, msg: Obj, world: World, locals: Locals): Dispatched {
    if ArraySize(msg) !in {3, 4} then Answers(EMPTY_ANSWER, locals)
    else match ParseRequest(msg)
      case Call(id, name, args) => DispatchCall(funcs, suppress, id, name, args, world, locals)
      case Notification(name, args) => DispatchNotification(funcs, suppress, name, args, world, locals)
      case BadMessage => Escapes
  }

  class Dispatcher {
    var funcs: Functions

    constructor ()
      ensures funcs == map[]
    {
      funcs := map[];
    }

    /** The logic_error of enforce_unique_name leaves the table as it was. */
    method Bind(name: Text, f: Function) returns (bound: bool)
      modifies this
      ensures bound <==> name !in old(funcs)
      ensures bound ==> funcs == old(funcs)[name := f]
      ensures !bound ==> funcs == old(funcs)
    {
      bound := name !in funcs;
      if bound {
        funcs := funcs[name := f];
      }
    }

    method Unbind(name: Text)
      modifies this
      ensures funcs == old(funcs) - {name}
    {
      funcs := funcs - {name};
    }
  }
}
