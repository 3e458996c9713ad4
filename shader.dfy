/**
 * The source preprocessing of the `Shader` constructor in `shader.h`:
 * reading the stage files, erasing carriage returns from the vertex and
 * fragment code (but not from the geometry code), and the guard that stops
 * before compiling when either required source is empty.
 *
 * The file system is a map from path to contents; a path absent from the
 * map is a file whose open fails, which throws and is caught (and logged)
 * inside the constructor. Compiling and linking are recorded as stage
 * events, and the program name `glCreateProgram` returns is a parameter.
 */
module Shaders {
  import opened Wrappers

  const CR: char := '\r'

  /** `s` with every carriage return erased, the rest kept in order. */
  function StripCR(s: string): string
  {
    if s == [] then []
    else StripCR(s[..|s| - 1]) + (if s[|s| - 1] == CR then [] else [s[|s| - 1]])
  }

  /** The number of carriage returns in `s`. */
  function CountCR(s: string): nat
  {
    if s == [] then 0
    else CountCR(s[..|s| - 1]) + (if s[|s| - 1] == CR then 1 else 0)
  }

  /** No carriage return survives stripping. */
  lemma {:induction false} StripCRNoCR(s: string)
    ensures CR !in StripCR(s)
  {
    if s != [] {
      StripCRNoCR(s[..|s| - 1]);
    }
  }

  /** Stripping removes exactly the carriage returns. */
  lemma {:induction false} StripCRLength(s: string)
    ensures |StripCR(s)| == |s| - CountCR(s)
    ensures CountCR(s) <= |s|
  {
    if s != [] {
      StripCRLength(s[..|s| - 1]);
    }
  }

  /** Every other character keeps its multiplicity. */
  lemma {:induction false} StripCRMultiset(s: string)
    ensures multiset(StripCR(s)) == multiset(s)[CR := 0]
  {
    if s != [] {
      var p := s[..|s| - 1];
      StripCRMultiset(p);
      assert s == p + [s[|s| - 1]];
      assert multiset(s) == multiset(p) + multiset{s[|s| - 1]};
    }
  }

  /** A string without carriage returns is left as it is. */
  lemma {:induction false} StripCRIdentity(s: string)
    requires CR !in s
    ensures StripCR(s) == s
  {
    if s != [] {
      StripCRIdentity(s[..|s| - 1]);
      assert s == s[..|s| - 1] + [s[|s| - 1]];
    }
  }

  /** Stripping twice is stripping once. */
  lemma StripCRIdempotent(s: string)
    ensures StripCR(StripCR(s)) == StripCR(s)
  {
    StripCRNoCR(s);
    StripCRIdentity(StripCR(s));
  }

  /** Stripping works piecewise, so the kept characters stay in their order. */
  lemma {:induction false} StripCRAppend(a: string, b: string)
    ensures StripCR(a + b) == StripCR(a) + StripCR(b)
  {
    if b != [] {
      var p := b[..|b| - 1];
      assert (a + b)[..|a + b| - 1] == a + p;
      StripCRAppend(a, p);
    } else {
      assert a + b == a;
    }
  }

  /**
   * `std::remove` of every `'\r'` over the buffer followed by `erase` of the
   * tail: the first `len` cells end up holding the stripped string.
   */
  method RemoveCR(a: array<char>) returns (len: nat)
    modifies a
    ensures len <= a.Length
    ensures a[..len] == StripCR(old(a[..]))
  {
    ghost var s := a[..];
    var w := 0;
    var r := 0;
    while r < a.Length
      invariant 0 <= w <= r <= a.Length
      invariant a[..w] == StripCR(s[..r])
      invariant forall k :: r <= k < a.Length ==> a[k] == s[k]
    {
      assert s[..r + 1][..r] == s[..r];
      assert a[r] == s[r];
      if a[r] != CR {
        a[w] := a[r];
        assert a[..w + 1] == a[..w] + [s[r]];
        w := w + 1;
      }
      r := r + 1;
    }
    assert s[..r] == s;
    len := w;
  }

  /** `code.erase(std::remove(code.begin(), code.end(), '\r'), code.end())` on a copy of the string. */
  method EraseCR(code: string) returns (stripped: string)
    ensures stripped == StripCR(code)
  {
    var buf := new char[|code|](i requires 0 <= i < |code| => code[i]);
    assert buf[..] == code;
    var len := RemoveCR(buf);
    stripped := buf[..len];
  }

  /** The three source strings the constructor ends up with. */
  datatype Sources = Sources(vertex: string, fragment: string, geometry: string)

  /**
   * What the `try` block leaves behind. Both opens come first, so a missing
   * vertex or fragment file leaves both codes empty; the geometry file is
   * read after the stripping, unstripped, and a failure to open it leaves
   * only the geometry code empty.
   */
  function ReadResult(files: map<string, string>, vertexFile: string, fragmentFile: string, geometryPath: Option<string>): Sources
  {
    if vertexFile in files && fragmentFile in files then
      var geometry := if geometryPath.Some? && geometryPath.value in files then files[geometryPath.value] else "";
      Sources(StripCR(files[vertexFile]), StripCR(files[fragmentFile]), geometry)
    else
      Sources("", "", "")
  }

  /** The guard before compilation: both required sources are non-empty. */
  predicate Compiles(src: Sources)
  {
    src.vertex != [] && src.fragment != []
  }

  /** The reading part of the constructor, with the exception handler folded into the branches. */
  method ReadSources(files: map<string, string>, vertexFile: string, fragmentFile: string, geometryPath: Option<string>)
    returns (src: Sources)
    ensures src == ReadResult(files, vertexFile, fragmentFile, geometryPath)
  {
    var vertexCode := "";
    var fragmentCode := "";
    var geometryCode := "";
    // Opening either file throws when it is missing; nothing is assigned then.
    if vertexFile in files && fragmentFile in files {
      vertexCode := files[vertexFile];
      fragmentCode := files[fragmentFile];
      vertexCode := EraseCR(vertexCode);
      fragmentCode := EraseCR(fragmentCode);
      if geometryPath.Some? {
        // A missing geometry file throws here, after the other two are set.
        if geometryPath.value in files {
          geometryCode := files[geometryPath.value];
        }
      }
    }
    src := Sources(vertexCode, fragmentCode, geometryCode);
  }

  /** After reading, vertex and fragment code hold no carriage return. */
  lemma ReadResultNoCR(files: map<string, string>, vertexFile: string, fragmentFile: string, geometryPath: Option<string>)
    ensures var src := ReadResult(files, vertexFile, fragmentFile, geometryPath);
      CR !in src.vertex && CR !in src.fragment
  {
    if vertexFile in files && fragmentFile in files {
      StripCRNoCR(files[vertexFile]);
      StripCRNoCR(files[fragmentFile]);
    }
  }

  /** Vertex and fragment code are the files' contents minus their carriage returns. */
  lemma ReadResultLengths(files: map<string, string>, vertexFile: string, fragmentFile: string, geometryPath: Option<string>)
    requires vertexFile in files && fragmentFile in files
    ensures var src := ReadResult(files, vertexFile, fragmentFile, geometryPath);
      && |src.vertex| == |files[vertexFile]| - CountCR(files[vertexFile])
      && |src.fragment| == |files[fragmentFile]| - CountCR(files[fragmentFile])
  {
    StripCRLength(files[vertexFile]);
    StripCRLength(files[fragmentFile]);
  }

  /** The geometry code is the file's contents verbatim, carriage returns included. */
  lemma GeometryNotStripped(files: map<string, string>, vertexFile: string, fragmentFile: string, geometryPath: string)
    requires vertexFile in files && fragmentFile in files && geometryPath in files
    ensures ReadResult(files, vertexFile, fragmentFile, Some(geometryPath)).geometry == files[geometryPath]
  {
  }

  /** A geometry file holding "\r\n" keeps its carriage return. */
  lemma GeometryKeepsCR()
    ensures var files := map["v" := "x", "f" := "y", "g" := "\r\n"];
      CR in ReadResult(files, "v", "f", Some("g")).geometry
  {
    var files := map["v" := "x", "f" := "y", "g" := "\r\n"];
    assert ReadResult(files, "v", "f", Some("g")).geometry == "\r\n";
    assert "\r\n"[0] == CR;
  }

  /** A missing vertex or fragment file leaves both codes empty, so the guard stops the constructor. */
  lemma MissingStageFile(files: map<string, string>, vertexFile: string, fragmentFile: string, geometryPath: Option<string>)
    requires vertexFile !in files || fragmentFile !in files
    ensures var src := ReadResult(files, vertexFile, fragmentFile, geometryPath);
      src.vertex == [] && src.fragment == [] && !Compiles(src)
  {
  }

  /** A missing geometry file does not stop compilation of non-empty vertex and fragment files. */
  lemma MissingGeometryFile(files: map<string, string>, vertexFile: string, fragmentFile: string, geometryPath: string)
    requires vertexFile in files && fragmentFile in files && geometryPath !in files
    requires CountCR(files[vertexFile]) < |files[vertexFile]| && CountCR(files[fragmentFile]) < |files[fragmentFile]|
    ensures var src := ReadResult(files, vertexFile, fragmentFile, Some(geometryPath));
      Compiles(src) && src.geometry == []
  {
    StripCRLength(files[vertexFile]);
    StripCRLength(files[fragmentFile]);
  }

  /** A shader object compiled from a source, by stage. */
  datatype Stage = VertexStage(source: string) | FragmentStage(source: string) | GeometryStage(source: string)

  /** The stages compiled and attached when the guard passes, in order. */
  function StagesOf(src: Sources, hasGeometry: bool): seq<Stage>
  {
    [VertexStage(src.vertex), FragmentStage(src.fragment)] + (if hasGeometry then [GeometryStage(src.geometry)] else [])
  }

  class Shader {
    /** The program name; `None` when the constructor returned before assigning it. */
    var id: Option<nat>
    /** The shader objects compiled for the program, in order. */
    var compiled: seq<Stage>

    /**
     * The constructor: read the files, stop when either required source is
     * empty, otherwise compile the vertex, fragment and (when a geometry
     * path is given) geometry stages and link them into `programName`.
     */
    constructor (files: map<string, string>, vertexFile: string, fragmentFile: string, geometryPath: Option<string>, programName: nat)
      ensures var src := ReadResult(files, vertexFile, fragmentFile, geometryPath);
        && (!Compiles(src) ==> id == None && compiled == [])
        && (Compiles(src) ==> id == Some(programName) && compiled == StagesOf(src, geometryPath.Some?))
    {
      var src := ReadSources(files, vertexFile, fragmentFile, geometryPath);
      if src.vertex == [] || src.fragment == [] {
        id := None;
        compiled := [];
      } else {
        var stages := [VertexStage(src.vertex), FragmentStage(src.fragment)];
        if geometryPath.Some? {
          stages := stages + [GeometryStage(src.geometry)];
        }
        compiled := stages;
        id := Some(programName);
      }
    }
  }
}
