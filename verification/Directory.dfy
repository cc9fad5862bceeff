/**
 One location of the file family, and the far end's atomic operations on it
 as `ClaimSite` asks for them and the in-memory location makes them.
 */
module Directory {

  /** What was written once, and what says it is unchanged. */
  datatype File = File(artifact: nat, stamp: nat)

  /** The files by name; the turns by name, each with its holder. */
  datatype Dir = Dir(files: map<string, File>, turns: map<string, string>)

  /** What became of a claimed artifact asked to go back. */
  datatype Restored = Back | Kept | Gone

  /** A file written under `name`, over what lay there. */
  function Written(d: Dir, name: string, file: File): Dir {
    d.(files := d.files[name := file])
  }

  /** A turn is taken only where nothing of its name lies. */
  function TurnTaken(d: Dir, turn: string, who: string): (Dir, bool) {
    if turn in d.files || turn in d.turns then (d, false)
    else (d.(turns := d.turns[turn := who]), true)
  }

  function TurnDropped(d: Dir, turn: string): Dir {
    d.(turns := d.turns - {turn})
  }

  function Moved(files: map<string, File>, from: string, to: string): map<string, File>
    requires from in files
  {
    (files - {from})[to := files[from]]
  }

  function Renamed(d: Dir, from: string, to: string): (Dir, bool) {
    if from in d.files then (d.(files := Moved(d.files, from, to)), true) else (d, false)
  }

  /** Back under `dropped`, never over what lies there. */
  function Returned(d: Dir, claimed: string, dropped: string): (Dir, Restored) {
    if dropped in d.files then (d, Kept)
    else if claimed in d.files then (d.(files := Moved(d.files, claimed, dropped)), Back)
    else (d, Gone)
  }

  function Deleted(d: Dir, name: string): Dir {
    d.(files := d.files - {name})
  }
}
