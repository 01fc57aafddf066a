/** The interpreter-version predicates computed when the entry script is
    loaded, and the deprecation notice they drive. Python compares
    `sys.version_info[:2]` with tuples such as `(3, 8)` and `(3,)`
    lexicographically; that comparison is written out here and the closed
    forms are proved from it. */
module PyVersion {

  datatype Version = Version(major: nat, minor: nat)

  /** `sys.version_info[:2]` as a tuple. */
  function Pair(v: Version): seq<int> {
    [v.major, v.minor]
  }

  /** Python's `a < b` on tuples of integers: the first differing position
      decides, and a proper prefix is smaller. */
  function TupleLess(a: seq<int>, b: seq<int>): bool
    decreases |a|
  {
    if |b| == 0 then false
    else if |a| == 0 then true
    else if a[0] != b[0] then a[0] < b[0]
    else TupleLess(a[1..], b[1..])
  }

  /** `_PY38_MIN`: the version is at least 3.8. */
  predicate Py38Min(v: Version) {
    !TupleLess(Pair(v), [3, 8])
  }

  /** `_PY3_MIN`: the version is at least 3.5. */
  predicate Py3Min(v: Version) {
    !TupleLess(Pair(v), [3, 5])
  }

  /** `_PY2_MIN`: `(2, 6) <= version < (3,)`. */
  predicate Py2Min(v: Version) {
    !TupleLess(Pair(v), [2, 6]) && TupleLess(Pair(v), [3])
  }

  /** `_PY_MIN`: the interpreter passes the version gate. */
  predicate PyMin(v: Version) {
    Py3Min(v) || Py2Min(v)
  }

  /** The deprecation notice is due when `CONTROLLER_PYTHON_WARNING` is set
      and the interpreter is older than 3.8. */
  predicate DeprecationDue(controllerPythonWarning: bool, v: Version) {
    controllerPythonWarning && !Py38Min(v)
  }

  /** Comparing two pairs is comparing majors, then minors. */
  lemma PairLess(a: int, b: int, c: int, d: int)
    ensures TupleLess([a, b], [c, d]) <==> a < c || (a == c && b < d)
  {
    if a == c {
      assert [a, b][1..] == [b] && [c, d][1..] == [d];
      assert TupleLess([b], [d]) == (b < d) by {
        assert [b][1..] == [] && [d][1..] == [];
      }
    }
  }

  /** A pair is below a one-element tuple exactly when its first item is:
      `(3, 0) < (3,)` is false, because `(3,)` is a proper prefix. */
  lemma PairLessSingle(a: int, b: int, c: int)
    ensures TupleLess([a, b], [c]) <==> a < c
  {
    if a == c {
      assert [a, b][1..] == [b] && [c][1..] == [];
    }
  }

  /** `_PY38_MIN` in closed form. */
  lemma Py38MinIff(v: Version)
    ensures Py38Min(v) <==> v.major > 3 || (v.major == 3 && v.minor >= 8)
  {
    PairLess(v.major, v.minor, 3, 8);
  }

  /** `_PY3_MIN` in closed form. */
  lemma Py3MinIff(v: Version)
    ensures Py3Min(v) <==> v.major > 3 || (v.major == 3 && v.minor >= 5)
  {
    PairLess(v.major, v.minor, 3, 5);
  }

  /** `_PY2_MIN` holds of exactly the 2.x releases from 2.6 on. */
  lemma Py2MinIff(v: Version)
    ensures Py2Min(v) <==> v.major == 2 && v.minor >= 6
  {
    PairLess(v.major, v.minor, 2, 6);
    PairLessSingle(v.major, v.minor, 3);
  }

  /** `_PY_MIN` accepts 2.6 to 2.x and 3.5 and later, and with the warning
      flag set the deprecation condition holds of exactly 2.6 to 2.x and 3.5
      to 3.7 among them. */
  lemma SupportedVersions(v: Version)
    ensures PyMin(v) <==> (v.major == 2 && v.minor >= 6) || v.major > 3 || (v.major == 3 && v.minor >= 5)
    ensures PyMin(v) && DeprecationDue(true, v) <==>
      (v.major == 2 && v.minor >= 6) || (v.major == 3 && 5 <= v.minor < 8)
    ensures Py38Min(v) ==> PyMin(v) && !DeprecationDue(true, v)
  {
    Py38MinIff(v);
    Py3MinIff(v);
    Py2MinIff(v);
  }

  /** The interpreter accepts f-strings, which the script uses throughout:
      Python 3.6 and later. An older interpreter rejects the whole file
      before the gate runs. */
  predicate FStrings(v: Version) {
    v.major > 3 || (v.major == 3 && v.minor >= 6)
  }

  /** Every interpreter that can parse the script passes the gate, so the
      `SystemExit` branch is never taken; among them the deprecation
      condition holds of exactly 3.6 and 3.7. */
  lemma GateUnreachable(v: Version)
    requires FStrings(v)
    ensures PyMin(v)
    ensures DeprecationDue(true, v) <==> v.major == 3 && v.minor < 8
  {
    Py38MinIff(v);
    Py3MinIff(v);
  }
}
