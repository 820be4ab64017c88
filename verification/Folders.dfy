/** A directory of named files, with a failure possible at every operation.  The ghost
    history holds every state a crash could leave on disk. */
module Folders {
  import opened Outcomes

  datatype Node = File(content: string) | Directory

  type Files = map<string, Node>

  /** Writing a file: the content passes through a torn state; a failed write may leave it. */
  datatype WriteCall = Wrote(torn: string) | WriteFailed(fault: Fault, created: bool, torn: string)

  function At(files: Files, name: string): Option<Node> {
    if name in files then Some(files[name]) else None
  }

  /** The two states agree on every name outside `names`. */
  ghost predicate SameElsewhere(a: Files, b: Files, names: set<string>) {
    forall n :: n !in names ==> At(a, n) == At(b, n)
  }

  class Folder {
    var files: Files
    ghost var history: seq<Files>

    constructor (files: Files)
      ensures this.files == files && history == []
    {
      this.files, history := files, [];
    }

    /** `unlink`, which no directory suffers. */
    method Unlink(name: string, call: Fault) returns (r: Fault)
      modifies this
      ensures r == if old(At(files, name)) == Some(Directory) then OsFault else call
      ensures files == if r.Fine? then old(files) - {name} else old(files)
      ensures history == old(history) + [files]
    {
      r := if At(files, name) == Some(Directory) then OsFault else call;
      if r.Fine? {
        files := files - {name};
      }
      history := history + [files];
    }

    /** `mkstemp`: makes an empty file under a name nothing holds yet. */
    method Create(name: string, call: Fault) returns (r: Fault)
      requires call.Fine? ==> name !in files
      modifies this
      ensures r == call
      ensures files == if call.Fine? then old(files)[name := File("")] else old(files)
      ensures history == old(history) + [files]
    {
      if call.Fine? {
        files := files[name := File("")];
      }
      history := history + [files];
      return call;
    }

    method Write(name: string, content: string, call: WriteCall) returns (r: Fault)
      requires call.WriteFailed? ==> !call.fault.Fine?
      modifies this
      ensures r == if call.Wrote? then Fine else call.fault
      ensures call.Wrote? ==>
        && files == old(files)[name := File(content)]
        && history == old(history) + [old(files)[name := File(call.torn)], files]
      ensures call.WriteFailed? ==>
        && files == (if call.created then old(files)[name := File(call.torn)] else old(files))
        && history == old(history) + [files]
    {
      if call.WriteFailed? {
        if call.created {
          files := files[name := File(call.torn)];
        }
        history := history + [files];
        return call.fault;
      }
      files := files[name := File(call.torn)];
      history := history + [files];
      files := files[name := File(content)];
      history := history + [files];
      return Fine;
    }

    /** `os.replace`: atomic, so there is no state in between. */
    method Replace(from: string, to: string, call: Fault) returns (r: Fault)
      requires from in files && from != to
      modifies this
      ensures r == call
      ensures files == if call.Fine? then (old(files) - {from})[to := old(files)[from]] else old(files)
      ensures history == old(history) + [files]
    {
      if call.Fine? {
        files := (files - {from})[to := files[from]];
      }
      history := history + [files];
      return call;
    }
  }
}
