/** The two PHP built-ins whose exact meaning the plugin's logic depends on,
    restricted to string operands. */
module Php {

  /** PHP's `empty()` applied to a string: true for "" and for "0", false otherwise
      (so " ", "00" and "0.0" are not empty). */
  predicate Empty(s: string)
    ensures Empty(s) <==> |s| <= 1 && forall i :: 0 <= i < |s| ==> s[i] == '0'
  {
    s == "" || s == "0"
  }

  /** PHP's `in_array($needle, $haystack, true)`: a linear scan of the array's values
      with strict (`===`) comparison, so no case folding, trimming or type juggling. */
  function InArray<T(==)>(needle: T, haystack: seq<T>): (found: bool)
    ensures found <==> needle in haystack
    ensures found ==> exists i :: 0 <= i < |haystack| && haystack[i] == needle
  {
    if haystack == [] then false
    else haystack[0] == needle || InArray(needle, haystack[1..])
  }
}
