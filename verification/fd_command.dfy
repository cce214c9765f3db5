/** The argument vector handed to `fd`. */
module FdCommand {
  import opened Wrappers

  /** What the `fd` call is asked to do; `root` is the expanded search
      root as a string. */
  datatype FdRequest = FdRequest(fdType: string, maxDepth: string, hidden: bool, root: string)

  const HiddenOn: string := "--hidden"
  const HiddenOff: string := "--no-hidden"

  /** The flag for hidden entries: `--hidden` exactly when they are wanted. */
  function HiddenFlag(hidden: bool): (flag: string)
    ensures flag == HiddenOn <==> hidden
    ensures flag == HiddenOff <==> !hidden
  {
    if hidden then HiddenOn else HiddenOff
  }

  /** `. --type T --max-depth D <hidden flag> ROOT`, in that fixed order;
      the strings are passed through unchanged. */
  function FdArgs(req: FdRequest): (args: seq<string>)
    ensures |args| == 7
    ensures args[0] == "." && args[1] == "--type" && args[3] == "--max-depth"
    ensures args[2] == req.fdType && args[4] == req.maxDepth && args[6] == req.root
    ensures args[5] == HiddenOn <==> req.hidden
  {
    [".", "--type", req.fdType, "--max-depth", req.maxDepth, HiddenFlag(req.hidden), req.root]
  }

  /** Reads an argument vector of the shape `FdArgs` builds. */
  function ParseFdArgs(args: seq<string>): (r: Option<FdRequest>)
    ensures r.Some? ==> |args| == 7 && args[2] == r.value.fdType && args[4] == r.value.maxDepth && args[6] == r.value.root
  {
    if |args| == 7 && args[0] == "." && args[1] == "--type" && args[3] == "--max-depth"
       && (args[5] == HiddenOn || args[5] == HiddenOff)
    then Some(FdRequest(args[2], args[4], args[5] == HiddenOn, args[6]))
    else None
  }

  /** Building then reading the arguments recovers the request: no setting
      is lost or altered on the way to `fd`. */
  lemma ParseOfFdArgs(req: FdRequest)
    ensures ParseFdArgs(FdArgs(req)) == Some(req)
  {
  }

  /** Every vector that reads back as a request is the one built from it. */
  lemma FdArgsOfParse(args: seq<string>)
    requires ParseFdArgs(args).Some?
    ensures FdArgs(ParseFdArgs(args).value) == args
  {
  }

  /** Different requests give different argument vectors. */
  lemma FdArgsInjective(a: FdRequest, b: FdRequest)
    ensures FdArgs(a) == FdArgs(b) ==> a == b
  {
  }
}
