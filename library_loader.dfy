/**
  The Python loader of the shared library (python_ctypes.py): the library's file name chosen
  by operating system, the path built next to the script, and the check that the file exists
  before anything is loaded. The file system is a parameter: `isFile` says whether the path
  names an existing file.
 */
module LibraryLoader {
  import opened Wrappers

  const WindowsLib := "JsonMidiPlayer_ctypes.dll"
  const MacLib := "libJsonMidiPlayer_ctypes.dylib"
  const UnixLib := "libJsonMidiPlayer_ctypes.so"

  /** `lib_name`: chosen from `platform.system()`; any system other than Windows or macOS is taken for Unix. */
  function LibName(system: string): (r: string)
    ensures r == WindowsLib <==> system == "Windows"
    ensures r == MacLib <==> system == "Darwin"
    ensures r == UnixLib <==> system != "Windows" && system != "Darwin"
  {
    if system == "Windows" then WindowsLib
    else if system == "Darwin" then MacLib
    else UnixLib
  }

  /** The separator `os.path` writes: a backslash on Windows, a slash elsewhere. */
  function Sep(system: string): char {
    if system == "Windows" then '\\' else '/'
  }

  /** The characters `os.path` takes for separators: Windows also accepts a slash. */
  predicate IsSep(system: string, c: char) {
    c == Sep(system) || (system == "Windows" && c == '/')
  }

  /**
    `os.path.join(dir, part)` for a relative `part`: an empty `dir` gives `part`; otherwise a
    separator is put between them unless `dir` already ends with one.
   */
  function Join(system: string, dir: string, part: string): string {
    if dir == [] then part
    else if IsSep(system, dir[|dir| - 1]) then dir + part
    else dir + [Sep(system)] + part
  }

  /**
    Joining keeps both parts whole and adds at most one separator between them: the result is
    the directory, with a separator appended where it needs one, followed by the part.
   */
  lemma JoinShape(system: string, dir: string, part: string)
    ensures Join(system, dir, part) == DirPart(system, dir) + part
    ensures Join(system, dir, part)[..|dir|] == dir
    ensures Join(system, dir, part)[|Join(system, dir, part)| - |part|..] == part
    ensures |dir| + |part| <= |Join(system, dir, part)| <= |dir| + |part| + 1
  {
    var r := DirPart(system, dir) + part;
    assert r[..|dir|] == DirPart(system, dir)[..|dir|];
    assert r[|r| - |part|..] == part;
  }

  /** `lib_path`: `os.path.join(script_dir, 'lib', lib_name)`. */
  function LibPath(system: string, scriptDir: string): string {
    Join(system, Join(system, scriptDir, "lib"), LibName(system))
  }

  /** What `LibPath` puts after the script's directory, whatever that directory is. */
  function LibTail(system: string): string {
    "lib" + [Sep(system)] + LibName(system)
  }

  /**
    The path is the script's directory (with a separator where it has none) followed by a
    tail that depends on the system alone: a change of directory changes only the prefix.
   */
  lemma LibPathShape(system: string, scriptDir: string)
    ensures LibPath(system, scriptDir) == DirPart(system, scriptDir) + LibTail(system)
    ensures LibPath(system, scriptDir)[..|scriptDir|] == scriptDir
  {
    var pre, n, sep := DirPart(system, scriptDir), LibName(system), Sep(system);
    var d := Join(system, scriptDir, "lib");
    JoinShape(system, scriptDir, "lib");
    assert d[|d| - 1] == 'b' && !IsSep(system, 'b');
    calc {
      LibPath(system, scriptDir);
      d + [sep] + n;
      (pre + "lib") + [sep] + n;
      { assert (pre + "lib") + [sep] + n == pre + ("lib" + [sep] + n); }
      pre + LibTail(system);
    }
    assert (pre + LibTail(system))[..|scriptDir|] == pre[..|scriptDir|];
  }

  /** What `LibPath` puts before `lib`: the script's directory, with a separator when it needs one. */
  function DirPart(system: string, scriptDir: string): (r: string)
    ensures |scriptDir| <= |r| <= |scriptDir| + 1 && r[..|scriptDir|] == scriptDir
  {
    if scriptDir == [] || IsSep(system, scriptDir[|scriptDir| - 1]) then scriptDir
    else scriptDir + [Sep(system)]
  }

  datatype LoadError = FileNotFound(message: string)

  /**
    The existence check: a missing file raises `FileNotFoundError` naming the path, before any
    load is attempted; an existing one is the path to load.
   */
  function CheckLibrary(system: string, scriptDir: string, isFile: string -> bool): Result<string, LoadError> {
    var path := LibPath(system, scriptDir);
    if !isFile(path) then Failure(FileNotFound("COULD NOT FIND THE LIBRARY FILE: " + path))
    else Success(path)
  }

  /**
    The loader goes on to load a file only when it exists, and that file is the system's
    library in `lib` under the script's directory; otherwise the error names that same path.
   */
  lemma LoadsOnlyTheSystemLibrary(system: string, scriptDir: string, isFile: string -> bool)
    ensures CheckLibrary(system, scriptDir, isFile).Success? <==> isFile(DirPart(system, scriptDir) + LibTail(system))
    ensures CheckLibrary(system, scriptDir, isFile).Success? ==>
              var v := CheckLibrary(system, scriptDir, isFile).value;
              && isFile(v) && v[..|scriptDir|] == scriptDir
              && |v| >= |LibName(system)| && v[|v| - |LibName(system)|..] == LibName(system)
    ensures CheckLibrary(system, scriptDir, isFile).Failure? ==>
              CheckLibrary(system, scriptDir, isFile).error
                == FileNotFound("COULD NOT FIND THE LIBRARY FILE: " + DirPart(system, scriptDir) + LibTail(system))
  {
    LibPathShape(system, scriptDir);
    var v := LibPath(system, scriptDir);
    assert v == (DirPart(system, scriptDir) + ("lib" + [Sep(system)])) + LibName(system);
    assert v[|v| - |LibName(system)|..] == LibName(system);
  }
}
