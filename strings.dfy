/** String prefix test, as JavaScript's `String.prototype.startsWith` with no position argument. */
module Strings {

  /** True when `s` begins with `prefix`, compared character by character from the left. */
  function StartsWith(s: string, prefix: string): (r: bool)
    ensures r <==> |prefix| <= |s| && s[..|prefix|] == prefix
  {
    if prefix == [] then true
    else if s == [] then false
    else s[0] == prefix[0] && StartsWith(s[1..], prefix[1..])
  }
}
