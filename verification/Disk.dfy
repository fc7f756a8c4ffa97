/** The disk a component run works on: files by path, calls that may fail for
    any reason at any moment, and a failed call that changes nothing. */
module Disk {
  import opened Audio

  /** An absolute clean path: its components from the top. */
  type Path = seq<string>

  function Dir(p: Path): Path
    requires p != []
  {
    p[..|p| - 1]
  }

  function Base(p: Path): string
    requires p != []
  {
    p[|p| - 1]
  }

  /** What a path holds. `Partial` is an encoder's unfinished output. */
  datatype Content = Media(id: nat) | Partial | Encoded(of: Content, spec: Spec) | Folder

  datatype Fault = Fine | Missing | Denied | Busy | Broken

  /** What the surroundings may answer; absence is decided by the disk itself. */
  type Weather = f: Fault | f != Missing witness Fine

  /** How one encode ends: the context was canceled before it started, or the
      encoder failed leaving nothing or an unfinished file, with or without the
      context canceled meanwhile. */
  datatype EncodeFate = Clean | NotStarted | Nothing(canceled: bool) | Torn(canceled: bool)

  /** Eight characters of a fresh identifier. */
  type Tag = s: string | |s| == 8 witness "00000000"

  /** Everything a run cannot control: how each call fares, whether the context
      is canceled when it is looked at, and how each encode ends. */
  datatype Env = Env(
    weather: nat -> Weather, canceled: nat -> bool,
    encodes: nat -> EncodeFate, temp: nat -> Tag, aside: nat -> Tag)

  datatype World = World(files: map<Path, Content>, clock: nat)
  datatype Call = Call(w: World, err: Fault)

  predicate IsFile(files: map<Path, Content>, p: Path) {
    p in files && !files[p].Folder?
  }

  predicate IsFolder(files: map<Path, Content>, p: Path) {
    p in files && files[p].Folder?
  }

  /** Looking at the context takes a moment too. */
  function Tick(w: World): World {
    World(w.files, w.clock + 1)
  }

  function RenameFault(env: Env, w: World, from: Path, to: Path): Fault {
    if env.weather(w.clock) != Fine then env.weather(w.clock)
    else if from !in w.files then Missing
    else if IsFolder(w.files, from) || IsFolder(w.files, to) then Broken
    else Fine
  }

  function Renamed(files: map<Path, Content>, from: Path, to: Path): map<Path, Content> {
    if from in files then (files - {from})[to := files[from]] else files
  }

  /** A rename replaces whatever file is at the destination. */
  function Rename(env: Env, w: World, from: Path, to: Path): Call {
    var err := RenameFault(env, w, from, to);
    Call(World(if err == Fine then Renamed(w.files, from, to) else w.files, w.clock + 1), err)
  }

  function RemoveFault(env: Env, w: World, p: Path): Fault {
    if env.weather(w.clock) != Fine then env.weather(w.clock)
    else if p !in w.files then Missing
    else if IsFolder(w.files, p) then Broken
    else Fine
  }

  function Remove(env: Env, w: World, p: Path): Call {
    var err := RemoveFault(env, w, p);
    Call(World(if err == Fine then w.files - {p} else w.files, w.clock + 1), err)
  }

  /** Every directory on the way to `d`, and `d`. */
  function Ancestors(d: Path): set<Path> {
    set k: nat | 0 < k <= |d| :: d[..k]
  }

  function MkdirFault(env: Env, w: World, d: Path): Fault {
    if env.weather(w.clock) != Fine then env.weather(w.clock)
    else if exists p :: p in Ancestors(d) && IsFile(w.files, p) then Broken
    else Fine
  }

  function WithFolders(files: map<Path, Content>, dirs: set<Path>): map<Path, Content> {
    files + map p | p in dirs && p !in files :: Folder
  }

  function MkdirAll(env: Env, w: World, d: Path): Call {
    var err := MkdirFault(env, w, d);
    Call(World(if err == Fine then WithFolders(w.files, Ancestors(d)) else w.files, w.clock + 1), err)
  }

  function Inspect(env: Env, w: World, p: Path): Call {
    var err := if env.weather(w.clock) != Fine then env.weather(w.clock)
               else if p !in w.files then Missing else Fine;
    Call(World(w.files, w.clock + 1), err)
  }

  /** The disk as an object: one method per system call, each moving the clock. */
  class Filesystem {
    const env: Env
    var files: map<Path, Content>
    var clock: nat

    ghost function View(): World
      reads this
    {
      World(files, clock)
    }

    constructor (env: Env, files: map<Path, Content>)
      ensures this.env == env && View() == World(files, 0)
    {
      this.env, this.files, this.clock := env, files, 0;
    }

    method Canceled() returns (c: bool)
      modifies this
      ensures c == env.canceled(old(clock)) && View() == Tick(old(View()))
    {
      c := env.canceled(clock);
      clock := clock + 1;
    }

    method Move(from: Path, to: Path) returns (err: Fault)
      modifies this
      ensures Call(View(), err) == Rename(env, old(View()), from, to)
    {
      err := env.weather(clock);
      clock := clock + 1;
      if err == Fine {
        if from !in files {
          err := Missing;
        } else if files[from].Folder? || (to in files && files[to].Folder?) {
          err := Broken;
        } else {
          files := (files - {from})[to := files[from]];
        }
      }
    }

    method Delete(p: Path) returns (err: Fault)
      modifies this
      ensures Call(View(), err) == Remove(env, old(View()), p)
    {
      err := env.weather(clock);
      clock := clock + 1;
      if err == Fine {
        if p !in files {
          err := Missing;
        } else if files[p].Folder? {
          err := Broken;
        } else {
          files := files - {p};
        }
      }
    }

    method MakeDirs(d: Path) returns (err: Fault)
      modifies this
      ensures Call(View(), err) == MkdirAll(env, old(View()), d)
    {
      err := env.weather(clock);
      clock := clock + 1;
      if err == Fine {
        if exists p :: p in Ancestors(d) && IsFile(files, p) {
          err := Broken;
        } else {
          files := WithFolders(files, Ancestors(d));
        }
      }
    }

    method Look(p: Path) returns (err: Fault)
      modifies this
      ensures Call(View(), err) == Inspect(env, old(View()), p)
    {
      err := env.weather(clock);
      clock := clock + 1;
      if err == Fine && p !in files {
        err := Missing;
      }
    }
  }
}
