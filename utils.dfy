/** String helpers shared by the controllers (pkg/utils). */
module Utils {

  /** `str` occurs in `list`, defined by recursion on the list so that
      the loop of ContainsString has an independent reference to meet. */
  predicate Occurs(list: seq<string>, str: string)
    decreases |list|
  {
    list != [] && (list[0] == str || Occurs(list[1..], str))
  }

  /** Occurs agrees with "some index holds `str`". */
  lemma {:induction false} OccursIffSomeIndex(list: seq<string>, str: string)
    ensures Occurs(list, str) <==> exists i :: 0 <= i < |list| && list[i] == str
    decreases |list|
  {
    if list != [] {
      OccursIffSomeIndex(list[1..], str);
      if Occurs(list[1..], str) {
        var i :| 0 <= i < |list[1..]| && list[1..][i] == str;
        assert list[i + 1] == str;
      }
      if exists i :: 0 <= i < |list| && list[i] == str {
        var i :| 0 <= i < |list| && list[i] == str;
        if i > 0 {
          assert list[1..][i - 1] == str;
        }
      }
    }
  }

  /** Appending more entries never removes an occurrence. */
  lemma {:induction false} OccursMonotone(list: seq<string>, more: seq<string>, str: string)
    requires Occurs(list, str)
    ensures Occurs(list + more, str)
    decreases |list|
  {
    assert (list + more)[0] == list[0];
    if list[0] != str {
      assert (list + more)[1..] == list[1..] + more;
      OccursMonotone(list[1..], more, str);
    }
  }

  /** ContainsString: a linear scan that returns true at the first index
      holding `str`, and false after the whole list was scanned. The list
      is a value, so the caller's list is left as it was. */
  method ContainsString(list: seq<string>, str: string) returns (found: bool)
    ensures found <==> exists i :: 0 <= i < |list| && list[i] == str
    ensures found == Occurs(list, str)
    ensures list == [] ==> !found
  {
    OccursIffSomeIndex(list, str);
    for item := 0 to |list|
      invariant forall j :: 0 <= j < item ==> list[j] != str
    {
      if str == list[item] {
        return true;
      }
    }
    return false;
  }
}
