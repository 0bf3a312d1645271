/** Vocabulary shared by every module: options and results, the ASCII part of
    Go's string trimming and lower-casing, decoded JSON, and tables in id order. */
module Base {

  datatype Option<+T> = None | Some(value: T)

  datatype Result<+T, +E> = Ok(value: T) | Err(error: E)

  /** How an API request is turned down. */
  datatype ApiError = BadRequest | NotFound | Conflict | Unprocessable

  /** A decoded JSON value. Numbers carry no information the program looks at. */
  datatype Json =
    | JNull
    | JBool(flag: bool)
    | JNumber
    | JString(text: string)
    | JArray(items: seq<Json>)
    | JObject(fields: map<string, Json>)

  /** `map[string]any`: service configurations, account data and access tokens. */
  type Config = map<string, Json>

  // ---------- strings ----------

  predicate IsSpace(c: char) {
    c == ' ' || c == '\t' || c == '\n' || c == '\r' || c == '\U{0B}' || c == '\U{0C}'
  }

  /** No space at either end. */
  predicate Trimmed(s: string) {
    s == "" || (!IsSpace(s[0]) && !IsSpace(s[|s| - 1]))
  }

  function SkipSpaces(s: string, i: nat): (r: nat)
    requires i <= |s|
    ensures i <= r <= |s|
    ensures r < |s| ==> !IsSpace(s[r])
    ensures i < |s| && !IsSpace(s[i]) ==> r == i
    decreases |s| - i
  {
    if i < |s| && IsSpace(s[i]) then SkipSpaces(s, i + 1) else i
  }

  function DropSpaces(s: string, lo: nat, hi: nat): (r: nat)
    requires lo <= hi <= |s|
    ensures lo <= r <= hi
    ensures r > lo ==> !IsSpace(s[r - 1])
    ensures lo < hi && !IsSpace(s[hi - 1]) ==> r == hi
  {
    if lo < hi && IsSpace(s[hi - 1]) then DropSpaces(s, lo, hi - 1) else hi
  }

  function Trim(s: string): (r: string)
    ensures Trimmed(r)
    ensures Trimmed(s) ==> r == s
  {
    var lo := SkipSpaces(s, 0);
    s[lo..DropSpaces(s, lo, |s|)]
  }

  function LowerChar(c: char): (r: char)
    ensures IsSpace(r) == IsSpace(c)
  {
    if 'A' <= c <= 'Z' then (c as int + 32) as char else c
  }

  function Lower(s: string): (r: string)
    ensures |r| == |s|
    ensures forall i :: 0 <= i < |s| ==> r[i] == LowerChar(s[i])
  {
    seq(|s|, i requires 0 <= i < |s| => LowerChar(s[i]))
  }

  /** `strings.ToLower(strings.TrimSpace(value))`. */
  function Normalize(s: string): string {
    Lower(Trim(s))
  }

  /** Normalizing is a projection onto trimmed strings. */
  lemma NormalizeTwice(s: string)
    ensures Trimmed(Normalize(s))
    ensures Normalize(Normalize(s)) == Normalize(s)
    ensures Normalize(s) == "" <==> Trim(s) == ""
  {
    var t := Trim(s);
    assert Trim(Lower(t)) == Lower(t);
    forall i | 0 <= i < |t| ensures LowerChar(LowerChar(t[i])) == LowerChar(t[i]) {}
    assert Lower(Lower(t)) == Lower(t);
  }

  /** The string stored under a key, trimmed; "" when absent or not a string. */
  function LookupString(config: Config, key: string): (r: string)
    ensures Trimmed(r)
  {
    if key in config && config[key].JString? then Trim(config[key].text) else ""
  }

  /** The text t, without spaces around it and not empty, is stored under the key. */
  ghost predicate Holds(config: Config, key: string, t: string) {
    t != "" && exists raw :: key in config && config[key] == JString(raw) && Trim(raw) == t
  }

  ghost predicate Blank(config: Config, key: string) {
    forall t :: !Holds(config, key, t)
  }

  lemma LookupHolds(config: Config, key: string)
    ensures LookupString(config, key) != "" ==> Holds(config, key, LookupString(config, key))
    ensures LookupString(config, key) == "" <==> Blank(config, key)
    ensures forall t :: Holds(config, key, t) ==> LookupString(config, key) == t
  {
    if LookupString(config, key) != "" {
      assert config[key] == JString(config[key].text);
      assert Holds(config, key, LookupString(config, key));
    } else {
      forall t ensures !Holds(config, key, t) {}
    }
  }

  lemma {:induction false} SkipsSpacesOnly(s: string, i: nat)
    requires i <= |s|
    ensures forall k :: i <= k < SkipSpaces(s, i) ==> IsSpace(s[k])
    decreases |s| - i
  {
    if i < |s| && IsSpace(s[i]) {
      SkipsSpacesOnly(s, i + 1);
    }
  }

  lemma {:induction false} DropsSpacesOnly(s: string, lo: nat, hi: nat)
    requires lo <= hi <= |s|
    ensures forall k :: DropSpaces(s, lo, hi) <= k < hi ==> IsSpace(s[k])
  {
    if lo < hi && IsSpace(s[hi - 1]) {
      DropsSpacesOnly(s, lo, hi - 1);
    }
  }

  /** Trimming takes off the spaces at both ends, blanks and the control characters from tab
      to carriage return, and nothing else; what is left begins and ends without one. */
  lemma TrimMeaning(s: string)
    ensures exists i, j :: 0 <= i <= j <= |s| && Trim(s) == s[i..j]
              && (forall k :: 0 <= k < i || j <= k < |s| ==> s[k] == ' ' || 9 <= s[k] as int <= 13)
    ensures Trim(s) != "" ==>
              !(Trim(s)[0] == ' ' || 9 <= Trim(s)[0] as int <= 13)
              && !(Trim(s)[|Trim(s)| - 1] == ' ' || 9 <= Trim(s)[|Trim(s)| - 1] as int <= 13)
  {
    var lo := SkipSpaces(s, 0);
    var hi := DropSpaces(s, lo, |s|);
    SkipsSpacesOnly(s, 0);
    DropsSpacesOnly(s, lo, |s|);
    assert Trim(s) == s[lo..hi];
    forall k | 0 <= k < lo || hi <= k < |s| ensures s[k] == ' ' || 9 <= s[k] as int <= 13 {
      assert IsSpace(s[k]);
    }
  }

  /** Normalized names have no capital letters, and differ from the trimmed name only in that
      each capital has become its small letter. */
  lemma NormalizeMeaning(s: string)
    ensures |Normalize(s)| == |Trim(s)|
    ensures forall k :: 0 <= k < |Trim(s)| ==>
              var c, d := Trim(s)[k], Normalize(s)[k];
              !('A' <= d <= 'Z') && (d == c || ('A' <= c <= 'Z' && d as int - 'a' as int == c as int - 'A' as int))
  {}

  // ---------- tables ----------

  /** The rows with an id below n, in id order: `ORDER BY id`. */
  function InIdOrder<T>(table: map<int, T>, n: nat): seq<T> {
    if n == 0 then []
    else InIdOrder(table, n - 1) + (if n - 1 in table then [table[n - 1]] else [])
  }

  /** `WHERE keep LIMIT 1`. */
  function FirstWhere<T>(rows: seq<T>, keep: T -> bool): (r: Option<T>)
    ensures r.Some? ==> r.value in rows && keep(r.value)
    ensures r.None? ==> forall x :: x in rows ==> !keep(x)
  {
    if rows == [] then None
    else if keep(rows[0]) then Some(rows[0])
    else FirstWhere(rows[1..], keep)
  }

  lemma {:induction false} InIdOrderMembers<T>(table: map<int, T>, n: nat, x: T)
    ensures x in InIdOrder(table, n) <==> exists i :: 0 <= i < n && i in table && table[i] == x
  {
    if n > 0 {
      InIdOrderMembers(table, n - 1, x);
    }
  }
}
