/** The Python list operations the world model relies on. */
module Lists {

  /** No element occurs twice. */
  predicate NoDup<T(==)>(s: seq<T>) {
    forall i, j :: 0 <= i < j < |s| ==> s[i] != s[j]
  }

  /** `if v not in s: s.append(v)` */
  function AppendIfAbsent<T(==,!new)>(s: seq<T>, v: T): (r: seq<T>)
    ensures v in r
    ensures forall u :: u in r <==> u in s || u == v
    ensures v in s ==> r == s
    ensures v !in s ==> |r| == |s| + 1 && r[..|s|] == s
    ensures NoDup(s) ==> NoDup(r)
  {
    if v in s then s else s + [v]
  }

  /** `if v in s: s.remove(v)`; Python's `list.remove` drops the first occurrence only. */
  function RemoveFirst<T(==,!new)>(s: seq<T>, v: T): (r: seq<T>)
    ensures v !in s ==> r == s
    ensures v in s ==> |r| == |s| - 1
    ensures forall u :: u in r ==> u in s
    ensures forall u :: u in s && u != v ==> u in r
    ensures NoDup(s) ==> NoDup(r) && v !in r
  {
    if |s| == 0 then []
    else if s[0] == v then s[1..]
    else
      var rest := RemoveFirst(s[1..], v);
      assert NoDup(s) ==> NoDup(s[1..]) && s[0] !in rest by {
        if NoDup(s) {
          assert forall i, j :: 0 <= i < j < |s[1..]| ==> s[1..][i] == s[i + 1] && s[1..][j] == s[j + 1];
          assert forall k :: 0 <= k < |s[1..]| ==> s[1..][k] != s[0];
        }
      }
      [s[0]] + rest
  }
}
