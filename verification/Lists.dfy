/** Lists of names as sets. */
module Lists {
  predicate NoDup(s: seq<string>) {
    forall i, j | 0 <= i < j < |s| :: s[i] != s[j]
  }

  function SetOf(s: seq<string>): set<string> {
    set x | x in s
  }

  lemma {:induction false} NoDupSize(s: seq<string>)
    ensures |SetOf(s)| <= |s|
    ensures |SetOf(s)| == |s| <==> NoDup(s)
  {
    if s != [] {
      var n := |s| - 1;
      NoDupSize(s[..n]);
      assert s == s[..n] + [s[n]];
      if s[n] in s[..n] {
        assert SetOf(s) == SetOf(s[..n]);
        assert !NoDup(s) by {
          var i :| 0 <= i < n && s[..n][i] == s[n];
        }
      } else {
        assert SetOf(s) == SetOf(s[..n]) + {s[n]};
        assert forall i | 0 <= i < n :: s[i] == s[..n][i];
      }
    }
  }
}
