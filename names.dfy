/** The two string helpers of the exporter: object-name normalisation and the
    output file's extension. */
module Names {
  import opened Text

  /** `fixObjName`: every `.` of an object name becomes `_`, so that the name is a
      valid identifier in the destination document. */
  function FixObjName(name: string): (r: string)
    ensures |r| == |name|
    ensures forall i :: 0 <= i < |name| ==> r[i] == (if name[i] == '.' then '_' else name[i])
  {
    if name == [] then []
    else (if name[0] == '.' then "_" else [name[0]]) + FixObjName(name[1..])
  }

  /** A normalised name contains no `.`. */
  lemma FixObjNameHasNoDot(name: string)
    ensures '.' !in FixObjName(name)
  {
  }

  /** Normalising twice is normalising once. */
  lemma FixObjNameIdempotent(name: string)
    ensures FixObjName(FixObjName(name)) == FixObjName(name)
  {
    var r := FixObjName(name);
    var rr := FixObjName(r);
    assert |rr| == |r|;
    forall i | 0 <= i < |r| ensures rr[i] == r[i] {
      assert r[i] != '.';
    }
  }

  /** A name without `.` is left as it is. */
  lemma FixObjNameKeepsDotFreeName(name: string)
    requires '.' !in name
    ensures FixObjName(name) == name
  {
    var r := FixObjName(name);
    forall i | 0 <= i < |name| ensures r[i] == name[i] {
      assert name[i] != '.';
    }
  }

  /** Normalisation is not injective: two distinct scene objects can end up with the
      same identifier (for one, `Cube.001` and `Cube_001`). */
  lemma FixObjNameCollides()
    ensures "Cube.001" != "Cube_001" && FixObjName("Cube.001") == FixObjName("Cube_001")
  {
    var a := FixObjName("Cube.001");
    var b := FixObjName("Cube_001");
    assert "Cube.001"[4] != "Cube_001"[4];
    forall i | 0 <= i < 8 ensures a[i] == b[i] {
      assert a[i] == (if "Cube.001"[i] == '.' then '_' else "Cube.001"[i]);
    }
  }

  const MotnExtension: string := ".motn"

  /** The output path: `.motn` is appended unless the path already ends with it. The
      result always ends with `.motn`, starts with the path the caller gave, and is that
      path itself exactly when it already ends with `.motn`. */
  function WithMotnExtension(path: string): (r: string)
    ensures EndsWith(r, MotnExtension)
    ensures path <= r
    ensures r == path <==> EndsWith(path, MotnExtension)
  {
    if EndsWith(path, MotnExtension) then path
    else
      var r := path + MotnExtension;
      assert r[|r| - |MotnExtension|..] == MotnExtension;
      r
  }

  /** Applying the extension step to its own result changes nothing. */
  lemma WithMotnExtensionIdempotent(path: string)
    ensures WithMotnExtension(WithMotnExtension(path)) == WithMotnExtension(path)
  {
  }
}
