/**
  The marker store of main.go: one file per process id, named by the decimal pid,
  inside the fixed directory /tmp/sypmix. The host filesystem is reduced to whether
  that directory exists and the names of the files in it; which filesystem calls
  fail is an input of each operation.
 */
module MarkerStore {
  import opened Errors
  import Decimal
  import FilePath

  /** Go's (string, error) result of getBasedir. */
  datatype PathResult = Path(path: string) | PathError(error: Error)

  /** Which filesystem calls fail when made: os.MkdirAll, ioutil.WriteFile, os.RemoveAll. */
  datatype Faults = Faults(mkdir: bool, write: bool, remove: bool)

  const Tmp := "/tmp"
  const DirName := "sypmix"

  /** filepath.Join("/tmp", "sypmix"). */
  function BaseDir(): (p: string)
    ensures p == "/tmp/sypmix"
  {
    FilePath.Join(Tmp, DirName)
  }

  /** strconv.Itoa(pid): the name of the marker of pid, a single path element that reads back as pid. */
  function MarkerName(pid: int): (name: string)
    ensures FilePath.IsElement(name)
    ensures Decimal.ParseInt(name) == Decimal.Some(pid)
  {
    Decimal.ParseIntItoa(pid);
    Decimal.Itoa(pid)
  }

  /** filepath.Join(dir, pid): the marker of pid is the file of that name directly in the base directory. */
  function MarkerPath(pid: int): (p: string)
    ensures FilePath.Parent(p) == BaseDir()
    ensures FilePath.FileName(p) == MarkerName(pid)
  {
    FilePath.Join(BaseDir(), MarkerName(pid))
  }

  /** Distinct pids have distinct marker files. */
  lemma MarkerPathInjective(a: int, b: int)
    ensures MarkerPath(a) == MarkerPath(b) <==> a == b
  {
    Decimal.ItoaInjective(a, b);
    if MarkerPath(a) == MarkerPath(b) {
      assert MarkerName(a) == FilePath.FileName(MarkerPath(b));
    }
  }

  /** The part of the host filesystem the plugin touches. */
  class Store {
    /** Whether /tmp/sypmix exists. */
    var dirExists: bool
    /** The names of the files in /tmp/sypmix. */
    var markers: set<string>

    /** A file in the directory needs the directory. */
    ghost predicate Valid()
      reads this
    {
      markers != {} ==> dirExists
    }

    /** Whether the marker of pid is there. */
    predicate HasMarker(pid: int)
      reads this
    {
      MarkerName(pid) in markers
    }

    /**
      util.FileExists(path) for a path the store can hold: a file directly inside the
      base directory. On the marker path of a pid it is exactly that pid's marker.
     */
    function FileExists(path: string): (b: bool)
      reads this
      ensures forall pid :: path == MarkerPath(pid) ==> (b <==> dirExists && HasMarker(pid))
    {
      dirExists && FilePath.Parent(path) == BaseDir() && FilePath.FileName(path) in markers
    }

    /** The filesystem as the process finds it. */
    constructor (dirExists: bool, markers: set<string>)
      requires markers != {} ==> dirExists
      ensures Valid()
      ensures this.dirExists == dirExists && this.markers == markers
    {
      this.dirExists := dirExists;
      this.markers := markers;
    }

    /** getBasedir: the fixed base directory, created when it is absent. */
    method GetBasedir(faults: Faults) returns (r: PathResult)
      requires Valid()
      modifies this`dirExists
      ensures Valid()
      ensures dirExists == (old(dirExists) || !faults.mkdir)
      ensures r.Path? <==> dirExists
      ensures r.Path? ==> r.path == "/tmp/sypmix"
      ensures r.PathError? ==> r.error == MkdirFailed("/tmp/sypmix")
    {
      var path := BaseDir();
      if !dirExists {
        if faults.mkdir {
          return PathError(MkdirFailed(path));
        }
        dirExists := true;
      }
      return Path(path);
    }

    /** createTempFile: writes the marker of pid, refusing one that is already there. */
    method CreateTempFile(pid: int, faults: Faults) returns (err: Status)
      requires Valid()
      modifies this
      ensures Valid()
      ensures dirExists == (old(dirExists) || !faults.mkdir)
      ensures err ==
        if !dirExists then Fail(NoBaseDir(MkdirFailed(BaseDir())))
        else if old(HasMarker(pid)) then Fail(AlreadyExists(MarkerPath(pid)))
        else if faults.write then Fail(WriteFailed(MarkerPath(pid)))
        else Nil
      ensures markers == if err == Nil then old(markers) + {MarkerName(pid)} else old(markers)
      ensures err == Nil ==> HasMarker(pid) && !old(HasMarker(pid))
      ensures forall q :: q != pid ==> (HasMarker(q) <==> old(HasMarker(q)))
    {
      var name := MarkerName(pid);
      var dir := GetBasedir(faults);
      if dir.PathError? {
        return Fail(NoBaseDir(dir.error));
      }
      var file := FilePath.Join(dir.path, name);
      assert file == MarkerPath(pid);
      if FileExists(file) {
        return Fail(AlreadyExists(file));
      }
      if faults.write {
        return Fail(WriteFailed(file));
      }
      markers := markers + {FilePath.FileName(file)};
      forall q | q != pid ensures HasMarker(q) <==> old(HasMarker(q)) {
        Decimal.ItoaInjective(q, pid);
      }
      return Nil;
    }

    /** checkTempFile: whether the marker of pid is there; false when the base directory cannot be had. */
    method CheckTempFile(pid: int, faults: Faults) returns (present: bool)
      requires Valid()
      modifies this`dirExists
      ensures Valid()
      ensures markers == old(markers)
      ensures dirExists == (old(dirExists) || !faults.mkdir)
      ensures !dirExists ==> !present
      ensures present <==> HasMarker(pid)
    {
      var name := MarkerName(pid);
      var dir := GetBasedir(faults);
      if dir.PathError? {
        return false;
      }
      var file := FilePath.Join(dir.path, name);
      assert file == MarkerPath(pid);
      if FileExists(file) {
        return true;
      }
      return false;
    }

    /** deleteTempFile: removes the marker of pid when it is there. */
    method DeleteTempFile(pid: int, faults: Faults) returns (err: Status)
      requires Valid()
      modifies this
      ensures Valid()
      ensures dirExists == (old(dirExists) || !faults.mkdir)
      ensures err ==
        if !dirExists then Fail(NoBaseDir(MkdirFailed(BaseDir())))
        else if old(HasMarker(pid)) && faults.remove then Fail(RemoveFailed(MarkerPath(pid)))
        else Nil
      ensures markers ==
        if old(HasMarker(pid)) && err == Nil then old(markers) - {MarkerName(pid)} else old(markers)
      ensures err == Nil ==> !HasMarker(pid)
      ensures forall q :: q != pid ==> (HasMarker(q) <==> old(HasMarker(q)))
    {
      var name := MarkerName(pid);
      var dir := GetBasedir(faults);
      if dir.PathError? {
        return Fail(NoBaseDir(dir.error));
      }
      var file := FilePath.Join(dir.path, name);
      assert file == MarkerPath(pid);
      if FileExists(file) {
        if faults.remove {
          return Fail(RemoveFailed(file));
        }
        markers := markers - {FilePath.FileName(file)};
      }
      forall q | q != pid ensures HasMarker(q) <==> old(HasMarker(q)) {
        Decimal.ItoaInjective(q, pid);
      }
      return Nil;
    }
  }
}
