/**
 * `exportParameterToFile` and `callSsm`: check the input, make one request to
 * the store, classify its reply, and materialise the batch only on success.
 */
module Export {
  import opened Wrappers
  import opened Naming
  import opened Paths
  import opened Ssm
  import opened Fs
  import opened Materialize

  /** The caller's argument: an array of parameter names, or any other value. */
  datatype Input = Array(names: seq<string>) | NotArray

  /** The errors handed to the callback. */
  datatype Error =
    | ArgumentError           // the argument is not an array
    | InvalidParameters       // the store reported at least one invalid name
    | Transport(fault: string) // the store's own error, passed on as it came

  /**
   * How `callSsm` classifies the store's reply: a transport error first, then
   * any invalid name, and only then the batch to write.
   */
  function Classify(reply: Reply): (r: Result<seq<Parameter>, Error>)
    ensures reply.TransportError? ==> r == Failure(Transport(reply.fault))
    ensures reply.Ok? ==> (r.Success? <==> NoInvalidParameters(reply.response))
    ensures reply.Ok? && r.Failure? ==> r.error == InvalidParameters
    ensures r.Success? ==> reply.Ok? && r.value == ParameterList(reply.response)
  {
    match reply
    case TransportError(fault) => Failure(Transport(fault))
    case Ok(response) =>
      if NoInvalidParameters(response) then Success(ParameterList(response)) else Failure(InvalidParameters)
  }

  /** What the callback receives for a given reply: the error, or the paths written. */
  function Outcome(reply: Reply): (r: Result<seq<string>, Error>)
    ensures r.Failure? <==> Classify(reply).Failure?
    ensures r.Failure? ==> r.error == Classify(reply).error
    ensures r.Success? ==> r.value == OutputPaths(Classify(reply).value, PathFor)
  {
    match Classify(reply)
    case Success(parameters) => Success(OutputPaths(parameters, PathFor))
    case Failure(e) => Failure(e)
  }

  /**
   * An invalid name fails the whole batch, however many parameters did
   * resolve; an absent or empty list of invalid names lets it through.
   */
  lemma {:induction false} PartialResolutionFails(response: Response)
    ensures !NoInvalidParameters(response) ==> Outcome(Ok(response)) == Failure(InvalidParameters)
    ensures NoInvalidParameters(response) ==> Outcome(Ok(response)).Success?
  {
  }

  /**
   * On success the callback gets one path per resolved parameter, in order,
   * each `./data/` + the parameter's file name + `.json`.
   */
  lemma {:induction false} SuccessPaths(reply: Reply)
    requires Outcome(reply).Success?
    ensures reply.Ok? && |Outcome(reply).value| == |ParameterList(reply.response)|
    ensures forall i :: 0 <= i < |Outcome(reply).value| ==>
      Outcome(reply).value[i] == Prefix + FileName(ParameterList(reply.response)[i].name) + Extension
  {
    var ps := ParameterList(reply.response);
    forall i | 0 <= i < |ps|
      ensures Outcome(reply).value[i] == Prefix + FileName(ps[i].name) + Extension
    {
      PathShape(ps[i].name);
    }
  }

  /** `callSsm`: one request, then an error or the written batch. */
  method CallSsm(store: ParameterStore, fs: FileSystem, names: seq<string>) returns (r: Result<seq<string>, Error>)
    modifies store, fs
    ensures store.requests == old(store.requests) + [names]
    ensures r == Outcome(store.respond(names))
    ensures r.Failure? ==> fs.dirs == old(fs.dirs) && fs.files == old(fs.files)
    ensures r.Success? ==> fs.Exists(OutputsDir) && old(fs.dirs) <= fs.dirs <= old(fs.dirs) + {OutputsDir}
    ensures r.Success? ==> fs.files == Materialized(old(fs.files), ParameterList(store.respond(names).response), PathFor)
  {
    var reply := store.GetParameters(names);
    if reply.TransportError? {
      r := Failure(Transport(reply.fault));
    } else if !NoInvalidParameters(reply.response) {
      r := Failure(InvalidParameters);
    } else {
      var outputFiles := WriteResponseToFile(fs, reply.response);
      r := Success(outputFiles);
    }
  }

  /**
   * `exportParameterToFile`: a non-array is refused before the store is
   * asked anything; an array is passed to `callSsm` and its result returned.
   */
  method ExportParameterToFile(store: ParameterStore, fs: FileSystem, input: Input) returns (r: Result<seq<string>, Error>)
    modifies store, fs
    ensures input.NotArray? ==> r == Failure(ArgumentError)
    ensures input.NotArray? ==> store.requests == old(store.requests)
    ensures r.Failure? ==> fs.dirs == old(fs.dirs) && fs.files == old(fs.files)
    ensures input.Array? ==> store.requests == old(store.requests) + [input.names]
    ensures input.Array? ==> r == Outcome(store.respond(input.names))
    ensures input.Array? && r.Success? ==>
      fs.files == Materialized(old(fs.files), ParameterList(store.respond(input.names).response), PathFor)
    ensures r.Success? ==> fs.Exists(OutputsDir) && old(fs.dirs) <= fs.dirs <= old(fs.dirs) + {OutputsDir}
  {
    if input.NotArray? {
      return Failure(ArgumentError);
    }
    r := CallSsm(store, fs, input.names);
  }
}
