/** Values shared by every part of the backend model: optional values, the
    JavaScript number that `parseFloat` produces, JavaScript truthiness of an
    optional string, and the last segment of a path. */
module Common {

  /** An optional value; `None` stands for a JavaScript `undefined` field. */
  datatype Option<+T> = None | Some(value: T) {

    /** `x || d` for a field that is either absent or holds a value. */
    function GetOr(default: T): T {
      match this
      case Some(v) => v
      case None => default
    }
  }

  /** A JavaScript number as `parseFloat` yields it: a finite value, or NaN
      for text that does not start with a number. Every comparison with NaN
      is false and every arithmetic result involving NaN is NaN. */
  datatype JsNumber = NaN | Finite(value: real)

  /** A file-system path. */
  type Path = string

  /** JavaScript truthiness of an optional string field: present and non-empty. */
  predicate Truthy(s: Option<string>) {
    s.Some? && s.value != ""
  }

  /** The last segment of a path: everything after its last '/'. */
  function Basename(p: Path): string
    decreases |p|
  {
    if |p| == 0 || p[|p| - 1] == '/' then ""
    else Basename(p[..|p| - 1]) + [p[|p| - 1]]
  }

  /** The basename is the longest suffix of the path without a '/'. */
  lemma {:induction false} BasenameIsLastSegment(p: Path)
    ensures |Basename(p)| <= |p| && p[|p| - |Basename(p)|..] == Basename(p)
    ensures forall i :: 0 <= i < |Basename(p)| ==> Basename(p)[i] != '/'
    ensures |Basename(p)| < |p| ==> p[|p| - |Basename(p)| - 1] == '/'
    decreases |p|
  {
    if |p| > 0 && p[|p| - 1] != '/' {
      var q := p[..|p| - 1];
      BasenameIsLastSegment(q);
      assert p[|p| - |Basename(p)|..] == q[|q| - |Basename(q)|..] + [p[|p| - 1]];
    }
  }
}
