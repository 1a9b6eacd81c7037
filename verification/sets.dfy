// Sizes of finite sets, and their elements in a row.
module Sets {
  lemma SubsetCount<T>(a: set<T>, b: set<T>)
    requires a <= b
    ensures |a| <= |b| && |b - a| == |b| - |a|
  {
    assert b == a + (b - a);
  }

  lemma {:induction false} Enumerated<T>(s: set<T>) returns (r: seq<T>)
    ensures forall i, j :: 0 <= i < j < |r| ==> r[i] != r[j]
    ensures forall x :: x in r <==> x in s
  {
    if s == {} {
      r := [];
    } else {
      var x :| x in s;
      var rest := Enumerated(s - {x});
      r := [x] + rest;
    }
  }
}
