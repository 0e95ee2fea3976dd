/** Identifier formats that several components check alike. */
module Formats {

  predicate LowerHex(s: string) {
    forall k :: 0 <= k < |s| ==> '0' <= s[k] <= '9' || 'a' <= s[k] <= 'f'
  }

  /** `[a-z0-9_]{1,40}` */
  predicate TeamId(s: string) {
    1 <= |s| <= 40 && forall k :: 0 <= k < |s| ==> 'a' <= s[k] <= 'z' || '0' <= s[k] <= '9' || s[k] == '_'
  }
}
