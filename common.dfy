/** Shared vocabulary of the storefront client: optional values, JavaScript's
    `a || b` on strings, decimal rendering of numbers in paths and labels, and
    the browser's durable key/value store. */
module Common {

  datatype Option<+T> = None | Some(value: T)

  /** What a store operation hands back to the view:
      `{ success: true }` or `{ success: false, error }`. */
  datatype OpResult = Succeeded | Failed(error: string)

  /** `v || fallback` where `v` may be missing: an empty string is falsy in
      JavaScript, so only a present, non-empty `v` wins. */
  function Or(v: Option<string>, fallback: string): (r: string)
    ensures v.Some? && v.value != "" ==> r == v.value
    ensures !(v.Some? && v.value != "") ==> r == fallback
    ensures fallback != "" ==> r != ""
  {
    if v.Some? && v.value != "" then v.value else fallback
  }

  /** The character of a decimal digit. */
  function Digit(d: nat): (c: char)
    requires d < 10
    ensures '0' <= c <= '9'
  {
    ((('0' as int) + d) as char)
  }

  predicate IsDigits(s: string) {
    forall i :: 0 <= i < |s| ==> '0' <= s[i] <= '9'
  }

  /** Decimal rendering of a natural number, as a template literal
      `${n}` renders it. */
  function NatToString(n: nat): (s: string)
    ensures |s| >= 1 && IsDigits(s)
    ensures n < 10 <==> |s| == 1
    ensures s[0] == '0' ==> n == 0
    decreases n
  {
    if n < 10 then [Digit(n)] else NatToString(n / 10) + [Digit(n % 10)]
  }

  /** The number a run of decimal digits denotes, most significant first. */
  function DecimalValue(s: string): nat
    requires IsDigits(s)
    decreases |s|
  {
    if s == [] then 0 else 10 * DecimalValue(s[..|s| - 1]) + (s[|s| - 1] as int - '0' as int)
  }

  /** The rendering denotes the number rendered. */
  lemma {:induction false} NatToStringValue(n: nat)
    ensures DecimalValue(NatToString(n)) == n
    decreases n
  {
    if n >= 10 {
      var p := NatToString(n / 10);
      NatToStringValue(n / 10);
      assert (p + [Digit(n % 10)])[..|p|] == p;
    }
  }

  /** Different numbers are rendered differently, so a rendered number
      identifies the number. */
  lemma {:induction false} NatToStringInjective(a: nat, b: nat)
    ensures NatToString(a) == NatToString(b) ==> a == b
    decreases a
  {
    if NatToString(a) == NatToString(b) {
      var s := NatToString(a);
      if |s| == 1 {
        assert Digit(a) == s[0] == Digit(b);
      } else {
        var pa, pb := NatToString(a / 10), NatToString(b / 10);
        assert s == pa + [Digit(a % 10)];
        assert s == pb + [Digit(b % 10)];
        assert Digit(a % 10) == s[|s| - 1] == Digit(b % 10);
        assert pa == s[..|s| - 1] == pb;
        NatToStringInjective(a / 10, b / 10);
      }
    }
  }

  /** The two keys under which a session is kept in durable storage. */
  const TokenKey := "token"
  const UserKey := "user"

  /** Storage with both session keys written (the order of the two writes
      does not matter: the keys differ). */
  function WithSession(st: map<string, string>, token: string, user: string): (r: map<string, string>)
    ensures TokenKey in r && r[TokenKey] == token
    ensures UserKey in r && r[UserKey] == user
    ensures r.Keys == st.Keys + {TokenKey, UserKey}
    ensures forall k :: k in st && k != TokenKey && k != UserKey ==> k in r && r[k] == st[k]
  {
    st[TokenKey := token][UserKey := user]
  }

  /** Storage with both session keys removed; every other key is kept. */
  function WithoutSession(st: map<string, string>): (r: map<string, string>)
    ensures TokenKey !in r && UserKey !in r
    ensures r.Keys == st.Keys - {TokenKey, UserKey}
    ensures forall k :: k in r ==> r[k] == st[k]
  {
    st - {TokenKey, UserKey}
  }

  function Lookup(st: map<string, string>, key: string): (r: Option<string>)
    ensures r.Some? <==> key in st
    ensures r.Some? ==> r.value == st[key]
  {
    if key in st then Some(st[key]) else None
  }

  /** The browser's `localStorage`: one mutable string-to-string map shared
      by every part of the client. */
  class LocalStorage {
    var entries: map<string, string>

    constructor (initial: map<string, string>)
      ensures entries == initial
    {
      entries := initial;
    }

    function GetItem(key: string): (r: Option<string>)
      reads this
      ensures r.Some? <==> key in entries
      ensures r.Some? ==> r.value == entries[key]
    {
      Lookup(entries, key)
    }

    method SetItem(key: string, value: string)
      modifies this
      ensures entries == old(entries)[key := value]
    {
      entries := entries[key := value];
    }

    method RemoveItem(key: string)
      modifies this
      ensures entries == old(entries) - {key}
    {
      entries := entries - {key};
    }
  }
}
