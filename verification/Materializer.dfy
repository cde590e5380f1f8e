/**
 All-or-nothing publication of a directory of files (`_populate`, `_write` and `_readback` in
 scripts/poc_workload_materializer.py) on a file system whose every call may fail, before or after it took
 effect, or halfway through a write.
 */
module Materializer {
  import opened ByteStrings
  import opened Options

  const DIRECTORY: string := "workload"
  const FILES: seq<string> := ["Pulumi.yaml", "Pulumi.test.yaml", "__main__.py", "python"]
  const EXECUTABLE: string := "python"

  /** A permission mode, by its octal digits for owner and group; others have none. */
  datatype Mode = Mode(owner: nat, group: nat)

  const PRIVATE_DIRECTORY: Mode := Mode(7, 0)
  const PUBLIC_DIRECTORY: Mode := Mode(7, 5)
  const PRIVATE_FILE: Mode := Mode(6, 0)

  function FinalMode(name: string): Mode {
    if name == EXECUTABLE then Mode(5, 5) else Mode(4, 4)
  }

  /** `shared`: the group is the child's. */
  datatype Node = Node(bytes: Bytes, shared: bool, mode: Mode)

  datatype Directory = Directory(shared: bool, mode: Mode, files: map<string, Node>)

  datatype Entry = Foreign(content: Bytes) | Ours(directory: Directory)

  type Parent = map<string, Entry>

  type Documents = map<string, Bytes>

  predicate Documented(documents: Documents) {
    forall i :: 0 <= i < |FILES| ==> FILES[i] in documents
  }

  /** The child's group may enter the directory. */
  predicate Traversable(d: Directory) {
    d.shared && d.mode.group % 2 == 1
  }

  function FinalNode(documents: Documents, name: string): Node
    requires name in documents
  {
    Node(documents[name], true, FinalMode(name))
  }

  function Written(documents: Documents, n: nat): map<string, Node>
    requires Documented(documents) && n <= |FILES|
  {
    map i | 0 <= i < n :: FILES[i] := FinalNode(documents, FILES[i])
  }

  /** Every file is there with its bytes, group and mode, and nothing else is. */
  predicate Complete(d: Directory, documents: Documents)
    requires Documented(documents)
  {
    d.files == Written(documents, |FILES|)
  }

  /** Whenever the child may enter the directory, it finds it complete. */
  predicate Safe(parent: Parent, documents: Documents)
    requires Documented(documents)
  {
    DIRECTORY in parent && parent[DIRECTORY].Ours? && Traversable(parent[DIRECTORY].directory) ==>
      Complete(parent[DIRECTORY].directory, documents)
  }

  predicate AllSafe(states: seq<Parent>, documents: Documents)
    requires Documented(documents)
  {
    forall i :: 0 <= i < |states| ==> Safe(states[i], documents)
  }

  function NewDirectory(): Directory {
    Directory(false, PRIVATE_DIRECTORY, map[])
  }

  /** The directory as published. */
  function Published(documents: Documents): Directory
    requires Documented(documents)
  {
    Directory(true, PUBLIC_DIRECTORY, Written(documents, |FILES|))
  }

  /** How one call goes wrong: without effect, after its effect, or after part of a write. */
  datatype Fault = Works | Before | After | Midway(bytes: nat)

  datatype Outcome =
    | Returned           // the documents are published
    | NotStarted         // creating or opening the directory failed
    | Restored           // something failed, and the rollback went through
    | HalfRestored       // something failed, and then the rollback did
    | CloseFailed        // all was done, but closing the directory failed

  class Disk {
    const faults: nat -> Fault
    var calls: nat
    var parent: Parent
    ghost var states: seq<Parent>

    constructor (faults: nat -> Fault, parent: Parent)
      ensures this.faults == faults && this.parent == parent && states == [] && calls == 0
    {
      this.faults, this.calls, this.parent, this.states := faults, 0, parent, [];
    }

    /** Every call from number `a` up to but not including number `b` worked. */
    ghost predicate Worked(a: nat, b: nat) {
      forall i :: a <= i < b ==> faults(i) == Works
    }

    /** What came after call number `start`: every call worked, or it stopped at the first that failed. */
    ghost predicate Ran(start: nat, ok: bool)
      reads this
    {
      && start <= calls
      && if ok then Worked(start, calls) else start < calls && faults(calls - 1) != Works && Worked(start, calls - 1)
    }

    /** Our directory exists. */
    predicate Open()
      reads this
    {
      DIRECTORY in parent && parent[DIRECTORY].Ours?
    }

    function Dir(): Directory
      reads this
      requires Open()
    {
      parent[DIRECTORY].directory
    }

    function With(d: Directory): Parent
      reads this
    {
      parent[DIRECTORY := Ours(d)]
    }

    /** A call that changes nothing: opening, syncing, closing. */
    method Plain() returns (ok: bool)
      modifies this
      ensures parent == old(parent) && states == old(states)
      ensures ok <==> faults(old(calls)) == Works
      ensures calls == old(calls) + 1
    {
      ok := faults(calls) == Works;
      calls := calls + 1;
    }

    /** A call that changes the parent to `next`; failing, it may have done so or not. */
    method Change(next: Parent) returns (ok: bool)
      modifies this
      ensures parent == if faults(old(calls)) == Before then old(parent) else next
      ensures ok <==> faults(old(calls)) == Works
      ensures states == old(states) + [parent] && calls == old(calls) + 1
    {
      var fault := faults(calls);
      calls := calls + 1;
      ok := fault == Works;
      if fault != Before {
        parent := next;
      }
      states := states + [parent];
    }

    method Mkdir() returns (ok: bool)
      modifies this
      ensures ok <==> DIRECTORY !in old(parent) && faults(old(calls)) == Works
      ensures parent ==
        if DIRECTORY in old(parent) || faults(old(calls)) == Before then old(parent) else old(With(NewDirectory()))
      ensures states == if DIRECTORY in old(parent) then old(states) else old(states) + [parent]
      ensures calls == old(calls) + 1
    {
      if DIRECTORY in parent {
        calls := calls + 1;
        return false;
      }
      ok := Change(With(NewDirectory()));
    }

    method Chown() returns (ok: bool)
      requires Open()
      modifies this
      ensures parent == old(With(Dir().(shared := true))) || (!ok && parent == old(parent))
      ensures states == old(states) + [parent]
      ensures Ran(old(calls), ok) && old(calls) < calls
    {
      ok := Change(With(Dir().(shared := true)));
    }

    method Chmod(mode: Mode) returns (ok: bool)
      requires Open()
      modifies this
      ensures parent == old(With(Dir().(mode := mode))) || (!ok && parent == old(parent))
      ensures states == old(states) + [parent]
      ensures Ran(old(calls), ok)
    {
      ok := Change(With(Dir().(mode := mode)));
    }

    /** One file of the directory is created or changed. */
    method Put(name: string, node: Node) returns (ok: bool)
      requires Open()
      modifies this
      ensures var d := old(Dir());
        parent == old(With(d.(files := d.files[name := node]))) || (!ok && parent == old(parent))
      ensures states == old(states) + [parent]
      ensures Ran(old(calls), ok)
    {
      ok := Change(With(Dir().(files := Dir().files[name := node])));
    }

    /** `handle.write` and `flush`: a failure may leave any prefix. */
    method WriteBytes(name: string, raw: Bytes) returns (ok: bool, bytes: Bytes)
      requires Open() && name in Dir().files
      modifies this
      ensures ok ==> bytes == raw
      ensures parent == old(With(Dir().(files := Dir().files[name := Dir().files[name].(bytes := bytes)])))
      ensures states == old(states) + [parent]
      ensures Ran(old(calls), ok)
    {
      var fault, node := faults(calls), Dir().files[name];
      calls := calls + 1;
      ok := fault == Works;
      bytes := match fault
        case Before => node.bytes
        case Midway(n) => if n <= |raw| then raw[..n] else raw
        case _ => raw;
      parent := With(Dir().(files := Dir().files[name := node.(bytes := bytes)]));
      states := states + [parent];
    }

    method Unlink(name: string) returns (ok: bool)
      requires Open()
      modifies this
      ensures parent == old(With(Dir().(files := Dir().files - {name}))) || (!ok && parent == old(parent))
      ensures states == old(states) + [parent]
      ensures Ran(old(calls), ok)
    {
      ok := Change(With(Dir().(files := Dir().files - {name})));
    }

    method Rmdir() returns (ok: bool)
      requires Open()
      modifies this
      ensures ok ==> old(Dir()).files == map[]
      ensures old(Dir()).files != map[] ==> parent == old(parent)
      ensures parent == old(parent) - {DIRECTORY} || (!ok && parent == old(parent))
      ensures states == old(states) || states == old(states) + [parent]
      ensures old(Dir()).files == map[] ==> Ran(old(calls), ok)
    {
      if Dir().files != map[] {
        calls := calls + 1;
        return false;
      }
      ok := Change(parent - {DIRECTORY});
    }

    /** Everything in the parent but our directory. */
    function Others(): Parent
      reads this
    {
      parent - {DIRECTORY}
    }

    /** Our directory exists and the child cannot enter it. */
    predicate Hidden()
      reads this
    {
      Open() && Dir().mode == Mode(7, 0)
    }

    /** A change to one file of a hidden directory is not seen by the child. */
    method PutHidden(name: string, node: Node, ghost documents: Documents) returns (ok: bool)
      requires Documented(documents) && AllSafe(states, documents) && Hidden()
      modifies this
      ensures AllSafe(states, documents) && Hidden() && Others() == old(Others())
      ensures Dir().shared == old(Dir()).shared
      ensures Dir().files - {name} == old(Dir()).files - {name}
      ensures ok ==> name in Dir().files && Dir().files[name] == node
      ensures Ran(old(calls), ok)
    {
      ok := Put(name, node);
    }

    method WriteHidden(name: string, raw: Bytes, ghost documents: Documents) returns (ok: bool)
      requires Documented(documents) && AllSafe(states, documents) && Hidden() && name in Dir().files
      modifies this
      ensures AllSafe(states, documents) && Hidden() && Others() == old(Others())
      ensures Dir().shared == old(Dir()).shared
      ensures Dir().files - {name} == old(Dir()).files - {name}
      ensures ok ==> name in Dir().files && Dir().files[name] == old(Dir()).files[name].(bytes := raw)
      ensures Ran(old(calls), ok)
    {
      var bytes;
      ok, bytes := WriteBytes(name, raw);
    }

    /** The first half of `_write`: an empty private file, given to the child's group. */
    method CreateFile(name: string, ghost documents: Documents) returns (ok: bool)
      requires Documented(documents) && AllSafe(states, documents) && Hidden()
      modifies this
      ensures AllSafe(states, documents) && Hidden() && Others() == old(Others())
      ensures Dir().shared == old(Dir()).shared
      ensures Dir().files - {name} == old(Dir()).files - {name}
      ensures ok ==> name in Dir().files && Dir().files[name] == Node([], true, Mode(6, 0))
      ensures Ran(old(calls), ok)
    {
      ok := PutHidden(name, Node([], false, PRIVATE_FILE), documents);
      if !ok {
        return;
      }
      ok := Plain();
      if ok {
        ok := PutHidden(name, Node([], true, PRIVATE_FILE), documents);
      }
    }

    /** The second half: its bytes, then its final mode. */
    method FinishFile(name: string, raw: Bytes, ghost documents: Documents) returns (ok: bool)
      requires Documented(documents) && AllSafe(states, documents) && Hidden()
      requires name in Dir().files && Dir().files[name] == Node([], true, Mode(6, 0))
      modifies this
      ensures AllSafe(states, documents) && Hidden() && Others() == old(Others())
      ensures Dir().shared == old(Dir()).shared
      ensures Dir().files - {name} == old(Dir()).files - {name}
      ensures ok ==> name in Dir().files && Dir().files[name] == Node(raw, true, FinalMode(name))
      ensures Ran(old(calls), ok)
    {
      ok := WriteHidden(name, raw, documents);
      if ok {
        ok := PutHidden(name, Node(raw, true, FinalMode(name)), documents);
      }
      if ok {
        ok := Plain();
      }
      if ok {
        ok := Plain();
      }
    }

    /** `_write`: a private file, then its group, bytes and final mode. */
    method WriteFile(name: string, raw: Bytes, ghost documents: Documents) returns (ok: bool)
      requires Documented(documents) && AllSafe(states, documents) && Hidden()
      modifies this
      ensures AllSafe(states, documents) && Hidden() && Others() == old(Others())
      ensures Dir().shared == old(Dir()).shared
      ensures Dir().files - {name} == old(Dir()).files - {name}
      ensures ok ==> name in Dir().files && Dir().files[name] == Node(raw, true, FinalMode(name))
      ensures if name in old(Dir()).files then !ok else Ran(old(calls), ok)
    {
      if name in Dir().files {
        ok := Plain();
        return false;
      }
      ok := CreateFile(name, documents);
      if ok {
        ok := FinishFile(name, raw, documents);
      }
    }

    /** `_readback`: open, inspect and read. */
    method ReadBack(name: string, expected: Bytes) returns (ok: bool)
      requires Open()
      modifies this
      ensures parent == old(parent) && states == old(states)
      ensures ok ==> name in Dir().files && Dir().files[name] == Node(expected, true, FinalMode(name))
      ensures name in Dir().files && Dir().files[name] == Node(expected, true, FinalMode(name)) ==> Ran(old(calls), ok)
    {
      ok := Plain();
      if ok {
        ok := Plain();
      }
      if ok {
        ok := Plain();
      }
      ok := ok && name in Dir().files && Dir().files[name] == Node(expected, true, FinalMode(name));
    }

    method WriteAll(documents: Documents) returns (ok: bool)
      requires Documented(documents) && AllSafe(states, documents) && Hidden() && Dir().files == map[]
      modifies this
      ensures AllSafe(states, documents) && Hidden() && Others() == old(Others())
      ensures Dir().shared == old(Dir()).shared
      ensures forall n :: n in Dir().files ==> n in FILES
      ensures ok ==> Complete(Dir(), documents)
      ensures Ran(old(calls), ok)
    {
      ok := true;
      for i := 0 to |FILES|
        invariant AllSafe(states, documents) && Hidden() && Others() == old(Others())
        invariant Dir().shared == old(Dir()).shared
        invariant ok && Dir().files == Written(documents, i)
        invariant Ran(old(calls), true)
      {
        WrittenNext(documents, i);
        ghost var before := Dir().files;
        ok := WriteFile(FILES[i], documents[FILES[i]], documents);
        OneAdded(before, Dir().files, FILES[i]);
        if !ok {
          return;
        }
      }
    }

    method ReadAll(documents: Documents) returns (ok: bool)
      requires Documented(documents) && Open() && Complete(Dir(), documents)
      modifies this
      ensures parent == old(parent) && states == old(states)
      ensures Ran(old(calls), ok)
    {
      ok := true;
      for i := 0 to |FILES|
        invariant parent == old(parent) && states == old(states)
        invariant ok && Ran(old(calls), true)
      {
        WrittenHas(documents, i);
        ok := ReadBack(FILES[i], documents[FILES[i]]);
        if !ok {
          return;
        }
      }
    }

    /** The one permission change that lets the child in, between synchronisations. */
    method Show(ghost documents: Documents) returns (ok: bool)
      requires Documented(documents) && AllSafe(states, documents)
      requires Hidden() && Dir().shared && Complete(Dir(), documents)
      modifies this
      ensures AllSafe(states, documents) && Open() && Others() == old(Others()) && Complete(Dir(), documents)
      ensures ok ==> Dir() == Published(documents)
      ensures Ran(old(calls), ok)
    {
      ok := Plain();
      if !ok {
        return;
      }
      ok := Chmod(PUBLIC_DIRECTORY);
      if !ok {
        return;
      }
      ok := Plain();
      if !ok {
        return;
      }
      ok := Plain();
    }

    /** The guarded part of `_populate`. */
    method Fill(documents: Documents) returns (ok: bool)
      requires Documented(documents) && AllSafe(states, documents) && Open() && Dir() == NewDirectory()
      modifies this
      ensures AllSafe(states, documents) && Open() && Others() == old(Others()) && Safe(parent, documents)
      ensures forall n :: n in Dir().files ==> n in FILES
      ensures ok ==> Dir() == Published(documents)
      ensures Ran(old(calls), ok) && old(calls) < calls
    {
      hide Complete, Written;
      ok := Chown();
      if !ok {
        return;
      }
      ok := Chmod(PRIVATE_DIRECTORY);
      if !ok {
        return;
      }
      ok := WriteAll(documents);
      if !ok {
        return;
      }
      ok := ReadAll(documents);
      if !ok {
        return;
      }
      ok := Show(documents);
    }

    /** The rollback: close the directory to the child, empty it, remove it. */
    method RollBack(ghost documents: Documents) returns (ok: bool)
      requires Documented(documents) && AllSafe(states, documents) && Open() && Safe(parent, documents)
      requires forall n :: n in Dir().files ==> n in FILES
      modifies this
      ensures AllSafe(states, documents) && Safe(parent, documents)
      ensures ok ==> parent == old(Others())
      ensures parent == old(Others()) || (Open() && Others() == old(Others()))
      ensures Ran(old(calls), ok)
    {
      hide Complete, Written;
      ok := Chmod(PRIVATE_DIRECTORY);
      if !ok {
        return;
      }
      for i := 0 to |FILES|
        invariant AllSafe(states, documents) && Hidden() && Others() == old(Others())
        invariant ok && forall n :: n in Dir().files ==> exists j :: i <= j < |FILES| && FILES[j] == n
        invariant Ran(old(calls), true)
      {
        if FILES[i] in Dir().files {
          ok := Unlink(FILES[i]);
          if !ok {
            return;
          }
        } else {
          ok := Plain();
          if !ok {
            return;
          }
        }
      }
      ok := Rmdir();
    }

    /** Of the calls still to come, at most number `n` fails. */
    ghost predicate FailsOnlyAt(n: nat)
      reads this
    {
      forall i :: i >= calls && i != n ==> faults(i) == Works
    }

    /**
     `_populate`: every document published, or the parent as it was. The guarded part is the calls from the
     third up to number `guardEnd`; one failing call there, whichever it is, is undone completely, and only a
     second one, in the rollback, leaves the directory behind.
     */
    method Populate(documents: Documents) returns (r: Outcome, ghost guardEnd: nat)
      requires Documented(documents) && AllSafe(states, documents)
      modifies this
      ensures AllSafe(states, documents)
      ensures r.NotStarted? <==>
        DIRECTORY in old(parent) || faults(old(calls)) != Works || faults(old(calls) + 1) != Works
      ensures r.NotStarted? ==>
        parent == if DIRECTORY in old(parent) || faults(old(calls)) == Before then old(parent)
                  else old(parent)[DIRECTORY := Ours(Directory(false, Mode(7, 0), map[]))]
      ensures !r.NotStarted? ==> old(calls) + 2 < guardEnd < calls && DIRECTORY !in old(parent)
      ensures r.Returned? || r.CloseFailed? ==>
        parent == old(parent)[DIRECTORY := Ours(Published(documents))] && Worked(old(calls) + 2, guardEnd)
      ensures r.Returned? || r.CloseFailed? ==> calls == guardEnd + 1
      ensures r.Returned? <==> DIRECTORY !in old(parent) && Worked(old(calls), calls)
      ensures r.CloseFailed? ==> faults(guardEnd) != Works
      ensures r.Restored? || r.HalfRestored? ==>
        Worked(old(calls) + 2, guardEnd - 1) && faults(guardEnd - 1) != Works
      ensures r.Restored? ==> parent == old(parent) && Worked(guardEnd, calls - 1)
      ensures r.HalfRestored? ==>
        Others() == old(Others()) && Safe(parent, documents) && !Worked(guardEnd, calls - 1)
      ensures forall n: nat :: old(FailsOnlyAt(n)) ==> !r.HalfRestored?
    {
      hide Complete, Written, Published;
      guardEnd := calls;
      var made := Mkdir();
      if !made {
        return NotStarted, guardEnd;
      }
      var openOk := Plain();
      if !openOk {
        return NotStarted, guardEnd;
      }
      assert Others() == old(parent);
      var filled := Fill(documents);
      guardEnd := calls;
      if filled {
        assert parent == Others()[DIRECTORY := Ours(Dir())];
        var closed := Plain();
        return if closed then Returned else CloseFailed, guardEnd;
      }
      var restored := RollBack(documents);
      var closed := Plain();
      return if restored then Restored else HalfRestored, guardEnd;
    }
  }

  lemma {:induction false} WrittenNext(documents: Documents, n: nat)
    requires Documented(documents) && n < |FILES|
    ensures FILES[n] !in Written(documents, n)
    ensures Written(documents, n + 1) == Written(documents, n)[FILES[n] := FinalNode(documents, FILES[n])]
    ensures forall name :: name in Written(documents, n) ==> name in FILES
  {
  }

  lemma {:induction false} OneAdded(before: map<string, Node>, after: map<string, Node>, name: string)
    requires after - {name} == before - {name} && name !in before
    ensures forall n :: n in after ==> n in before || n == name
    ensures name in after ==> after == before[name := after[name]]
  {
    forall n | n != name ensures n in after <==> n in before
      ensures n in after ==> after[n] == before[n]
    {
      assert n in after - {name} <==> n in before - {name};
      assert n in after ==> after[n] == (after - {name})[n];
    }
  }

  lemma {:induction false} WrittenHas(documents: Documents, i: nat)
    requires Documented(documents) && i < |FILES|
    ensures FILES[i] in Written(documents, |FILES|)
    ensures Written(documents, |FILES|)[FILES[i]] == FinalNode(documents, FILES[i])
  {
  }

  // ---------------------------------------------------------------- the workload directory, written out

  /** A file its owner and the child's group may only read. */
  function ReadOnly(bytes: Bytes): Node {
    Node(bytes, true, Mode(4, 4))
  }

  predicate FourDocuments(documents: Documents) {
    {"Pulumi.yaml", "Pulumi.test.yaml", "__main__.py", "python"} <= documents.Keys
  }

  function FourFiles(documents: Documents): map<string, Node>
    requires FourDocuments(documents)
  {
    map["Pulumi.yaml" := ReadOnly(documents["Pulumi.yaml"]),
        "Pulumi.test.yaml" := ReadOnly(documents["Pulumi.test.yaml"]),
        "__main__.py" := ReadOnly(documents["__main__.py"]),
        "python" := Node(documents["python"], true, Mode(5, 5))]
  }

  lemma {:induction false} FilesExactly(documents: Documents)
    requires Documented(documents)
    ensures FourDocuments(documents) && Written(documents, |FILES|) == FourFiles(documents)
  {
    assert FILES[0] == "Pulumi.yaml" && FILES[1] == "Pulumi.test.yaml";
    assert FILES[2] == "__main__.py" && FILES[3] == "python" && |FILES| == 4;
    assert "Pulumi.yaml"[0] != "python"[0] && "__main__.py"[0] != "python"[0];
    WrittenNext(documents, 0);
    WrittenNext(documents, 1);
    WrittenNext(documents, 2);
    WrittenNext(documents, 3);
    assert Written(documents, 0) == map[];
  }

  /**
   What is published: a directory for the owner and the child's group, with the four files and nothing else. In a
   safe parent the child can never enter a `workload` directory of ours that has anything but these files.
   */
  lemma {:induction false} PublishedExactly(parent: Parent, documents: Documents)
    requires Documented(documents)
    ensures FourDocuments(documents)
    ensures Published(documents) == Directory(true, Mode(7, 5), FourFiles(documents))
    ensures Safe(parent, documents) <==> (
      "workload" in parent && parent["workload"].Ours? && parent["workload"].directory.shared
      && parent["workload"].directory.mode.group % 2 == 1 ==>
        parent["workload"].directory.files == FourFiles(documents))
  {
    hide Written, FourFiles;
    FilesExactly(documents);
  }
}
