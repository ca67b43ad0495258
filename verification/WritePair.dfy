/** Replacing two files together: `stage` and `write_pair` of deploy/auto_size.py. The file system is
    a map from paths; every call on it may fail, as `Faults` says. */
module WritePair {
  import opened Wrappers

  type Path = string

  datatype File = File(text: string, mode: nat)

  datatype Target = Target(path: Path, text: string, mode: nat)

  /** When staging fails: before its temporary file exists, or after. */
  datatype StageFault = NoFault | BeforeTemp | AfterTemp

  /** Which calls raise OSError, should they be reached. */
  datatype Faults = Faults(stageFirst: StageFault, stageSecond: StageFault, dropOldBackup: bool,
                           link: bool, replaceFirst: bool, replaceSecond: bool, rollback: bool)

  /** The names of the temporary files; `tempfile` makes the first two, the third is fixed. */
  datatype Temps = Temps(first: Path, second: Path, backup: Path)

  datatype Outcome =
    | Written
    | CannotWrite(path: Path)   // refused, nothing changed
    | CannotBackUp              // the OSError itself
    | PutBack                   // refused, the first was put back
    | Mismatch                  // refused, the two files no longer match

  class FileSystem {
    var files: map<Path, File>

    constructor (files: map<Path, File>)
      ensures this.files == files
    {
      this.files := files;
    }

    method Unlink(path: Path)
      modifies this
      ensures files == old(files) - {path}
    {
      files := files - {path};
    }

    /** `os.replace`: one step, or nothing. */
    method Replace(source: Path, path: Path, fails: bool)
      requires source in files && source != path
      modifies this
      ensures files == if fails then old(files) else old(files)[path := old(files)[source]] - {source}
    {
      if !fails {
        files := files[path := files[source]] - {source};
      }
    }

    /** `stage`: the new file under its temporary name, or nothing at all. */
    method Stage(target: Target, temp: Path, fault: StageFault) returns (ok: bool)
      requires temp !in files
      modifies this
      ensures ok == fault.NoFault?
      ensures files == if ok then old(files)[temp := File(target.text, target.mode)] else old(files)
    {
      if fault.BeforeTemp? {
        return false;
      }
      files := files[temp := File(target.text, 0)];
      if fault.AfterTemp? {
        files := files - {temp};
        assert files == old(files);
        return false;
      }
      files := files[temp := File(target.text, target.mode)];
      return true;
    }

    /** Both replacements, and the way back when the second fails. `left` tells whether the hard link
        still stands under its own name. */
    method SwapBoth(first: Target, second: Target, temps: Temps, faults: Faults, backup: bool)
      returns (outcome: Outcome, left: bool)
      requires Distinct(first.path, second.path, temps)
      requires temps.first in files && files[temps.first] == File(first.text, first.mode)
      requires temps.second in files && files[temps.second] == File(second.text, second.mode)
      requires if first.path in files then
                 backup && temps.backup in files && files[temps.backup] == files[first.path]
               else !backup
      modifies this
      ensures outcome == Swapping(first.path, faults) && (left ==> backup)
      ensures Rest(files, temps, left) == After(Rest(old(files), temps, backup), first, second, outcome)
    {
      Replace(temps.first, first.path, faults.replaceFirst);
      if faults.replaceFirst {
        return CannotWrite(first.path), backup;
      }
      Replace(temps.second, second.path, faults.replaceSecond);
      if !faults.replaceSecond {
        return Written, backup;
      }
      if faults.rollback {
        return Mismatch, backup;
      }
      if backup {
        Replace(temps.backup, first.path, false);
      } else {
        Unlink(first.path);
      }
      return PutBack, false;
    }

    method StageBoth(first: Target, second: Target, temps: Temps, faults: Faults)
      returns (failed: Option<Path>)
      requires Distinct(first.path, second.path, temps)
      requires temps.first !in files && temps.second !in files
      modifies this
      ensures failed == if !faults.stageFirst.NoFault? then Some(first.path)
                        else if !faults.stageSecond.NoFault? then Some(second.path) else None
      ensures failed.Some? ==> files - {temps.first, temps.second} == old(files)
      ensures failed.None? ==>
                files == old(files)[temps.first := File(first.text, first.mode)]
                                   [temps.second := File(second.text, second.mode)]
    {
      failed := None;
      var ok := Stage(first, temps.first, faults.stageFirst);
      if !ok {
        return Some(first.path);
      }
      ok := Stage(second, temps.second, faults.stageSecond);
      if !ok {
        failed := Some(second.path);
      }
    }

    /** The hard link to the first file, when there is one. */
    method BackUp(first: Path, temps: Temps, faults: Faults) returns (ok: bool, backup: bool)
      requires first != temps.backup
      modifies this
      ensures backup == (first in old(files))
      ensures ok == !(backup && (faults.dropOldBackup || faults.link))
      ensures !backup ==> files == old(files)
      ensures !ok ==> Without(files, temps.backup) == Without(old(files), temps.backup)
      ensures ok && backup ==> files == old(files)[temps.backup := old(files)[first]]
    {
      ok, backup := true, first in files;
      if backup {
        if faults.dropOldBackup {
          return false, true;
        }
        Unlink(temps.backup);
        if faults.link {
          return false, true;
        }
        files := files[temps.backup := files[first]];
      }
    }

    /** The body of `write_pair` up to its `finally`. `backup` tells whether the hard link is left. */
    method TryPair(first: Target, second: Target, temps: Temps, faults: Faults)
      returns (outcome: Outcome, backup: bool)
      requires Distinct(first.path, second.path, temps)
      requires temps.first !in files && temps.second !in files
      modifies this
      ensures outcome == Ending(first.path, second.path, faults, first.path in old(files))
      ensures Rest(files, temps, backup)
           == After(Start(old(files), first.path, temps, faults), first, second, outcome)
    {
      backup := false;
      var failed := StageBoth(first, second, temps, faults);
      if failed.Some? {
        return CannotWrite(failed.value), false;
      }
      var ok: bool;
      ok, backup := BackUp(first.path, temps, faults);
      if !ok {
        StagedAndLinked(old(files), first, second, temps);
        return CannotBackUp, true;
      }
      StagedAndLinked(old(files), first, second, temps);
      outcome, backup := SwapBoth(first, second, temps, faults, backup);
    }

    /** `write_pair`. Whatever fails, the two files are both new, or both as they were, a missing first
        one included, or the error says that they no longer match. Nothing else changes, and no
        temporary file is left; a backup left by an earlier run goes when the backup is taken. */
    method Write(first: Target, second: Target, temps: Temps, faults: Faults) returns (outcome: Outcome)
      requires Distinct(first.path, second.path, temps)
      requires temps.first !in files && temps.second !in files
      modifies this
      ensures outcome == Ending(first.path, second.path, faults, first.path in old(files))
      ensures var before := Start(old(files), first.path, temps, faults);
              && (outcome == Written ==>
                    files == before[first.path := File(first.text, first.mode)]
                                   [second.path := File(second.text, second.mode)])
              && (outcome == Mismatch ==> files == before[first.path := File(first.text, first.mode)])
              && (outcome != Written && outcome != Mismatch ==> files == before)
      ensures temps.first !in files && temps.second !in files
      ensures temps.backup in files ==> temps.backup in old(files)
    {
      var backup: bool;
      outcome, backup := TryPair(first, second, temps, faults);
      Unlink(temps.first);
      Unlink(temps.second);
      if backup {
        Unlink(temps.backup);
      }
    }
  }

  function Without(files: map<Path, File>, path: Path): map<Path, File> {
    files - {path}
  }

  /** What is left when the temporary files are gone. */
  function Rest(files: map<Path, File>, temps: Temps, backup: bool): map<Path, File> {
    if backup then Without(files, temps.backup) - {temps.first, temps.second}
    else files - {temps.first, temps.second}
  }

  /** Without the temporary files, what stands before the two replacements is what stood before. */
  lemma StagedAndLinked(files: map<Path, File>, first: Target, second: Target, temps: Temps)
    requires temps.first !in files && temps.second !in files
    ensures var staged := files[temps.first := File(first.text, first.mode)]
                               [temps.second := File(second.text, second.mode)];
            && Rest(staged, temps, false) == files
            && Rest(staged, temps, true) == Without(files, temps.backup)
            && (first.path in staged ==>
                  Rest(staged[temps.backup := staged[first.path]], temps, true)
                  == Without(files, temps.backup))
  {
  }

  /** The hard link is taken: both files are staged and the first exists. */
  predicate BackedUp(existed: bool, faults: Faults) {
    faults.stageFirst.NoFault? && faults.stageSecond.NoFault? && existed
  }

  /** The files, without a backup of an earlier run when a new one is taken. */
  function Start(files: map<Path, File>, first: Path, temps: Temps, faults: Faults): map<Path, File> {
    if BackedUp(first in files, faults) then Without(files, temps.backup) else files
  }

  function After(files: map<Path, File>, first: Target, second: Target, outcome: Outcome)
    : map<Path, File>
  {
    match outcome
    case Written => files[first.path := File(first.text, first.mode)]
                         [second.path := File(second.text, second.mode)]
    case Mismatch => files[first.path := File(first.text, first.mode)]
    case _ => files
  }

  predicate Distinct(first: Path, second: Path, temps: Temps) {
    && first != second && temps.first != temps.second && temps.first != temps.backup
    && temps.second != temps.backup
    && {first, second} !! {temps.first, temps.second, temps.backup}
  }

  /** Where the first call that fails leads. */
  function Ending(first: Path, second: Path, faults: Faults, existed: bool): Outcome {
    if !faults.stageFirst.NoFault? then CannotWrite(first)
    else if !faults.stageSecond.NoFault? then CannotWrite(second)
    else if existed && (faults.dropOldBackup || faults.link) then CannotBackUp
    else Swapping(first, faults)
  }

  function Swapping(first: Path, faults: Faults): Outcome {
    if faults.replaceFirst then CannotWrite(first)
    else if !faults.replaceSecond then Written
    else if faults.rollback then Mismatch
    else PutBack
  }
}
