/** The transcoding engine (an ffmpeg.wasm instance) as the editor sees
    it: it is loaded or not, and each call it receives may fail. Its
    internals are not modelled; every outcome is the engine's choice,
    except that nothing succeeds before a successful load. */
module Engine {
  import opened Media

  /** What is written into the engine's virtual filesystem: the bytes of a
      user file (`fetchFile(file)`) or a text. */
  datatype Payload = FileData(file: MediaFile) | TextData(text: string)

  /** One call into the engine. */
  datatype Call = WriteFile(name: string, data: Payload) | Exec(args: seq<string>) | ReadFile(name: string)

  /** How loading the engine core ends: loaded, or rejected with an error
      whose message is `message`. */
  datatype LoadResult = Loaded | LoadFailed(message: string)

  class FFmpeg {
    var loaded: bool

    constructor()
      ensures !loaded
    {
      loaded := false;
    }

    /** `load`: fetching and initialising the core, which may be rejected. */
    method Load() returns (r: LoadResult)
      modifies this
      ensures loaded == (old(loaded) || r == Loaded)
    {
      var ok: bool :| true;
      if ok {
        loaded := true;
        r := Loaded;
      } else {
        var message: string :| true;
        r := LoadFailed(message);
      }
    }

    /** `writeFile` (with the `fetchFile` that reads the bytes). */
    method WriteFile(name: string, data: Payload) returns (ok: bool)
      ensures !loaded ==> !ok
    {
      if !loaded {
        ok := false;
      } else {
        ok :| true;
      }
    }

    /** `exec`: `ok` says whether the call resolved. The exit code it
        resolves with is not modelled; the editor does not look at it. */
    method Exec(args: seq<string>) returns (ok: bool)
      ensures !loaded ==> !ok
    {
      if !loaded {
        ok := false;
      } else {
        ok :| true;
      }
    }

    /** `readFile`. */
    method ReadFile(name: string) returns (ok: bool)
      ensures !loaded ==> !ok
    {
      if !loaded {
        ok := false;
      } else {
        ok :| true;
      }
    }

    /** Runs one call, dispatching on its kind. */
    method Perform(call: Call) returns (ok: bool)
      ensures !loaded ==> !ok
    {
      match call
      case WriteFile(name, data) => ok := WriteFile(name, data);
      case Exec(args) => ok := Exec(args);
      case ReadFile(name) => ok := ReadFile(name);
    }
  }
}
