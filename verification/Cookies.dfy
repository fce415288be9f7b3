/** Values too long for one cookie, and the browser's jar that their cookies go through. */
module Cookies {
  import opened Wrappers

  const MAX_COOKIE_VALUE_BYTES: nat := 3800

  /** The cookies of one site and path, by name: what the browser keeps and sends back. */
  type Jar = map<string, string>

  /** A Set-Cookie header. Max-Age absent keeps the cookie for the browser session. */
  datatype SetCookie = SetCookie(name: string, value: string, maxAge: Option<int>)

  /** A cookie replaces the one of its name; one with no time left to live removes it. */
  function Received(jar: Jar, header: SetCookie): Jar {
    if header.maxAge.Some? && header.maxAge.value <= 0 then jar - {header.name}
    else jar[header.name := header.value]
  }

  function AllReceived(jar: Jar, headers: seq<SetCookie>): Jar {
    if headers == [] then jar
    else Received(AllReceived(jar, headers[..|headers| - 1]), headers[|headers| - 1])
  }

  lemma OneMoreReceived(jar: Jar, headers: seq<SetCookie>, header: SetCookie)
    ensures AllReceived(jar, headers + [header]) == Received(AllReceived(jar, headers), header)
  {
    assert (headers + [header])[..|headers|] == headers;
  }

  function SerializeCookie(name: string, value: string, maxAge: Option<int>): SetCookie {
    SetCookie(name, value, match maxAge case None => None case Some(m) => Some(if m < 0 then 0 else m))
  }

  function ClearCookie(name: string): SetCookie {
    SerializeCookie(name, "", Some(0))
  }

  // --- Names -------------------------------------------------------------------

  function Digit(n: nat): char
    requires n < 10
  {
    "0123456789"[n]
  }

  function Decimal(n: nat): (s: string)
    ensures s != []
  {
    if n < 10 then [Digit(n)] else Decimal(n / 10) + [Digit(n % 10)]
  }

  function ChunkName(name: string, index: nat): string {
    name + "." + Decimal(index)
  }

  lemma {:induction false} DecimalInjective(m: nat, n: nat)
    requires Decimal(m) == Decimal(n)
    ensures m == n
  {
    var s, t := Decimal(m), Decimal(n);
    assert s[|s| - 1] == Digit(m % 10) && t[|t| - 1] == Digit(n % 10);
    if m >= 10 && n >= 10 {
      assert s[..|s| - 1] == Decimal(m / 10) && t[..|t| - 1] == Decimal(n / 10);
      DecimalInjective(m / 10, n / 10);
    }
  }

  lemma ChunkNamesDiffer(name: string, i: nat, j: nat)
    ensures ChunkName(name, i) == ChunkName(name, j) ==> i == j
    ensures ChunkName(name, i) != name
    ensures IsNameOf(name, ChunkName(name, i))
  {
    assert ChunkName(name, i)[|name| + 1..] == Decimal(i);
    assert ChunkName(name, j)[|name| + 1..] == Decimal(j);
    if ChunkName(name, i) == ChunkName(name, j) {
      DecimalInjective(i, j);
    }
  }

  /** A name the whole cookie, or one of its chunks, may have. */
  predicate IsNameOf(name: string, key: string) {
    key == name || name + "." <= key
  }

  // --- Reading -----------------------------------------------------------------

  /** The jar holds chunks 0 to n - 1 and no chunk n. */
  ghost predicate HasChunks(jar: Jar, name: string, n: nat) {
    (forall i: nat | i < n :: ChunkName(name, i) in jar) && ChunkName(name, n) !in jar
  }

  function Parts(jar: Jar, name: string, n: nat): string
    requires forall i: nat | i < n :: ChunkName(name, i) in jar
  {
    if n == 0 then "" else Parts(jar, name, n - 1) + jar[ChunkName(name, n - 1)]
  }

  /** What reading a cookie gives: the whole cookie if it has a value, else its chunks joined, if any. */
  ghost predicate Reads(jar: Jar, name: string, result: Option<string>) {
    if name in jar && jar[name] != "" then result == Some(jar[name])
    else exists n: nat :: HasChunks(jar, name, n) && result == if n == 0 then None else Some(Parts(jar, name, n))
  }

  lemma NotReadYet(jar: Jar, name: string, left: set<string>, index: nat)
    requires ChunkName(name, index) in jar
    requires forall key | key in jar && key !in left :: exists i: nat :: i < index && key == ChunkName(name, i)
    ensures ChunkName(name, index) in left
  {
    if ChunkName(name, index) !in left {
      var i: nat :| i < index && ChunkName(name, index) == ChunkName(name, i);
      ChunkNamesDiffer(name, i, index);
      assert false;
    }
  }

  /** Finds the value in the jar, in one cookie or several. */
  method ReadChunked(jar: Jar, name: string) returns (result: Option<string>)
    ensures Reads(jar, name, result)
  {
    if name in jar && jar[name] != "" {
      return Some(jar[name]);
    }
    var joined, index := "", 0;
    ghost var left := jar.Keys;
    while ChunkName(name, index) in jar
      invariant forall i: nat | i < index :: ChunkName(name, i) in jar
      invariant joined == Parts(jar, name, index)
      invariant forall key | key in jar && key !in left :: exists i: nat :: i < index && key == ChunkName(name, i)
      decreases left
    {
      NotReadYet(jar, name, left, index);
      left := left - {ChunkName(name, index)};
      joined := joined + jar[ChunkName(name, index)];
      index := index + 1;
    }
    result := if index > 0 then Some(joined) else None;
  }

  // --- Writing -----------------------------------------------------------------

  predicate Lives(maxAge: Option<int>) {
    maxAge.None? || maxAge.value > 0
  }

  /** The part of the value in chunk i. */
  function Slice(value: string, i: nat): string {
    value[Smaller(i * MAX_COOKIE_VALUE_BYTES, |value|)..Smaller((i + 1) * MAX_COOKIE_VALUE_BYTES, |value|)]
  }

  /** The names in the jar that the cookie has or had. */
  function PresentNames(jar: Jar, name: string): set<string> {
    set key | key in jar && IsNameOf(name, key)
  }

  /** The first n chunks of a value, by name. */
  function Chunks(name: string, value: string, n: nat): Jar {
    if n == 0 then map[] else Chunks(name, value, n - 1)[ChunkName(name, n - 1) := Slice(value, n - 1)]
  }

  /** How many chunks a value takes: the first number, from i up, that covers its length. */
  function ChunkCount(value: string, i: nat): (n: nat)
    ensures i <= n && |value| <= n * MAX_COOKIE_VALUE_BYTES
    decreases |value| - i * MAX_COOKIE_VALUE_BYTES
  {
    if i * MAX_COOKIE_VALUE_BYTES < |value| then ChunkCount(value, i + 1) else i
  }

  /** The cookies a value is stored in. */
  function Stored(name: string, value: string): Jar {
    if |value| <= MAX_COOKIE_VALUE_BYTES then map[name := value] else Chunks(name, value, ChunkCount(value, 0))
  }

  lemma PutMore(jar: Jar, stored: Jar, key: string, value: string)
    ensures (jar + stored)[key := value] == jar + stored[key := value]
  {
  }

  lemma RemoveMore(jar: Jar, gone: set<string>, key: string)
    ensures (jar - gone) - {key} == jar - (gone + {key})
  {
  }

  /** The jar once the cookies come with this lifetime: they are kept, or removed if they have no time to live. */
  function Put(jar: Jar, stored: Jar, maxAge: Option<int>): Jar {
    if Lives(maxAge) then jar + stored else jar - stored.Keys
  }

  /** Writing and clearing what else was there comes to replacing all that was there. */
  lemma ReplacedOrGone(jar: Jar, present: set<string>, stored: Jar, maxAge: Option<int>)
    requires forall key | key in stored && key in jar :: key in present
    ensures Put(jar, stored, maxAge) - (present - stored.Keys) == Put(jar - present, stored, maxAge)
  {
  }

  lemma {:induction false} ChunksAreNamed(name: string, value: string, n: nat)
    ensures forall key | key in Chunks(name, value, n) :: IsNameOf(name, key)
  {
    if n > 0 {
      ChunksAreNamed(name, value, n - 1);
      ChunkNamesDiffer(name, n - 1, n - 1);
    }
  }

  /** Every cookie but the one of this name and those whose names go on after it with a dot is as before. */
  predicate KeepsOthers(jar: Jar, after: Jar, name: string) {
    forall key | key in jar && key != name && !(name + "." <= key) :: key in after && after[key] == jar[key]
  }

  /** Replaces the value in the jar: afterwards it holds the new value's cookies, unless they
      have no time to live, none else of that name, and every other cookie as it was. */
  method WriteChunked(jar: Jar, name: string, value: string, maxAge: Option<int>) returns (headers: seq<SetCookie>)
    ensures AllReceived(jar, headers) ==
            (jar - PresentNames(jar, name)) + if Lives(maxAge) then Stored(name, value) else map[]
    ensures KeepsOthers(jar, AllReceived(jar, headers), name)
  {
    var written;
    headers, written := WriteParts(jar, name, value, maxAge);
    headers := ClearStale(jar, headers, PresentNames(jar, name) - written);
    if |value| > MAX_COOKIE_VALUE_BYTES {
      ChunksAreNamed(name, value, ChunkCount(value, 0));
    }
    ReplacedOrGone(jar, PresentNames(jar, name), Stored(name, value), maxAge);
    NothingStored(jar, name, value);
  }

  lemma NothingStored(jar: Jar, name: string, value: string)
    requires forall key | key in Stored(name, value) :: IsNameOf(name, key)
    ensures (jar - PresentNames(jar, name)) - Stored(name, value).Keys == (jar - PresentNames(jar, name)) + map[]
  {
  }

  method WriteParts(jar: Jar, name: string, value: string, maxAge: Option<int>)
      returns (headers: seq<SetCookie>, written: set<string>)
    ensures AllReceived(jar, headers) == Put(jar, Stored(name, value), maxAge)
    ensures written == Stored(name, value).Keys
  {
    if |value| <= MAX_COOKIE_VALUE_BYTES {
      headers, written := [SerializeCookie(name, value, maxAge)], {name};
      OneMoreReceived(jar, [], headers[0]);
      assert [] + headers == headers;
    } else {
      headers, written := WriteChunks(jar, name, value, maxAge);
    }
  }

  method WriteChunks(jar: Jar, name: string, value: string, maxAge: Option<int>)
      returns (headers: seq<SetCookie>, written: set<string>)
    ensures AllReceived(jar, headers) == Put(jar, Chunks(name, value, ChunkCount(value, 0)), maxAge)
    ensures written == Chunks(name, value, ChunkCount(value, 0)).Keys
  {
    var index := 0;
    headers, written := [], {};
    while index * MAX_COOKIE_VALUE_BYTES < |value|
      invariant ChunkCount(value, index) == ChunkCount(value, 0)
      invariant written == Chunks(name, value, index).Keys
      invariant AllReceived(jar, headers) == Put(jar, Chunks(name, value, index), maxAge)
    {
      var header := SerializeCookie(ChunkName(name, index), Slice(value, index), maxAge);
      NextChunk(jar, headers, name, value, index, header, maxAge);
      headers := headers + [header];
      written := written + {ChunkName(name, index)};
      index := index + 1;
    }
  }

  lemma NextChunk(jar: Jar, headers: seq<SetCookie>, name: string, value: string, index: nat, header: SetCookie,
                  maxAge: Option<int>)
    requires AllReceived(jar, headers) == Put(jar, Chunks(name, value, index), maxAge)
    requires header == SerializeCookie(ChunkName(name, index), Slice(value, index), maxAge)
    ensures AllReceived(jar, headers + [header]) == Put(jar, Chunks(name, value, index + 1), maxAge)
    ensures Chunks(name, value, index + 1).Keys == Chunks(name, value, index).Keys + {ChunkName(name, index)}
  {
    OneMoreReceived(jar, headers, header);
    PutMore(jar, Chunks(name, value, index), header.name, header.value);
    RemoveMore(jar, Chunks(name, value, index).Keys, header.name);
  }

  /** Clears these names besides. */
  method ClearStale(jar: Jar, before: seq<SetCookie>, stale: set<string>) returns (headers: seq<SetCookie>)
    ensures AllReceived(jar, headers) == AllReceived(jar, before) - stale
  {
    headers := before;
    var left := stale;
    while left != {}
      invariant left <= stale
      invariant AllReceived(jar, headers) == AllReceived(jar, before) - (stale - left)
      decreases left
    {
      var key :| key in left;
      OneMoreReceived(jar, headers, ClearCookie(key));
      RemoveMore(AllReceived(jar, before), stale - left, key);
      assert stale - (left - {key}) == (stale - left) + {key};
      headers := headers + [ClearCookie(key)];
      left := left - {key};
    }
    assert stale - {} == stale;
  }

  /** Takes the value out of the jar, whichever cookies hold it, and nothing else. */
  method ClearChunked(jar: Jar, name: string) returns (headers: seq<SetCookie>)
    ensures AllReceived(jar, headers) == jar - PresentNames(jar, name)
    ensures KeepsOthers(jar, AllReceived(jar, headers), name)
  {
    headers := ClearStale(jar, [], {name} + PresentNames(jar, name));
    assert jar - ({name} + PresentNames(jar, name)) == jar - PresentNames(jar, name);
  }

  // --- What was written is what is read ----------------------------------------

  lemma {:induction false} ChunkAt(name: string, value: string, n: nat, i: nat)
    ensures ChunkName(name, i) in Chunks(name, value, n) <==> i < n
    ensures i < n ==> Chunks(name, value, n)[ChunkName(name, i)] == Slice(value, i)
    ensures name !in Chunks(name, value, n)
  {
    if n > 0 {
      ChunkAt(name, value, n - 1, i);
      ChunkNamesDiffer(name, i, n - 1);
      ChunkNamesDiffer(name, n - 1, i);
    }
  }

  lemma {:induction false} SlicesJoin(jar: Jar, name: string, value: string, n: nat)
    requires forall i: nat | i < n :: ChunkName(name, i) in jar && jar[ChunkName(name, i)] == Slice(value, i)
    ensures Parts(jar, name, n) == value[..Smaller(n * MAX_COOKIE_VALUE_BYTES, |value|)]
  {
    if n > 0 {
      SlicesJoin(jar, name, value, n - 1);
    }
  }

  lemma ReadChunksBack(after: Jar, name: string, value: string, n: nat, result: Option<string>)
    requires 0 < n && |value| <= n * MAX_COOKIE_VALUE_BYTES && name !in after
    requires forall i: nat :: ChunkName(name, i) in after <==> i < n
    requires forall i: nat | i < n :: after[ChunkName(name, i)] == Slice(value, i)
    requires Reads(after, name, result)
    ensures result == Some(value)
  {
    var m: nat :| HasChunks(after, name, m) && result == if m == 0 then None else Some(Parts(after, name, m));
    assert ChunkName(name, m) !in after;
    assert ChunkName(name, n) !in after;
    assert m == n;
    SlicesJoin(after, name, value, n);
    assert value[..|value|] == value;
  }

  /** No cookie of a stored value is longer than the limit, and one is enough when the value is not. */
  lemma StoredFits(name: string, value: string)
    ensures forall key | key in Stored(name, value) :: |Stored(name, value)[key]| <= MAX_COOKIE_VALUE_BYTES
    ensures |value| <= MAX_COOKIE_VALUE_BYTES ==> Stored(name, value) == map[name := value]
  {
    if |value| > MAX_COOKIE_VALUE_BYTES {
      ChunksFit(name, value, ChunkCount(value, 0));
    }
  }

  lemma {:induction false} ChunksFit(name: string, value: string, n: nat)
    ensures forall key | key in Chunks(name, value, n) :: |Chunks(name, value, n)[key]| <= MAX_COOKIE_VALUE_BYTES
  {
    if n > 0 {
      ChunksFit(name, value, n - 1);
    }
  }

  /** After clearing, nothing of the cookie is left to read. */
  lemma ClearThenRead(jar: Jar, name: string, result: Option<string>)
    requires Reads(jar - PresentNames(jar, name), name, result)
    ensures result == None
  {
    var after := jar - PresentNames(jar, name);
    ChunkNamesDiffer(name, 0, 0);
    var m: nat :| HasChunks(after, name, m) && result == if m == 0 then None else Some(Parts(after, name, m));
  }

  lemma StoredThenRead(jar: Jar, name: string, value: string, result: Option<string>)
    requires Reads((jar - PresentNames(jar, name)) + Stored(name, value), name, result)
    ensures result == if value == "" then None else Some(value)
  {
    var after := (jar - PresentNames(jar, name)) + Stored(name, value);
    forall i: nat
      ensures ChunkName(name, i) in after <==> ChunkName(name, i) in Stored(name, value)
      ensures ChunkName(name, i) != name
    {
      ChunkNamesDiffer(name, i, 0);
    }
    if |value| > MAX_COOKIE_VALUE_BYTES {
      var n := ChunkCount(value, 0);
      forall i: nat
        ensures ChunkName(name, i) in Stored(name, value) <==> i < n
        ensures i < n ==> Stored(name, value)[ChunkName(name, i)] == Slice(value, i)
        ensures name !in Stored(name, value)
      {
        ChunkAt(name, value, n, i);
      }
      assert name !in after by { ChunkAt(name, value, n, 0); }
      ReadChunksBack(after, name, value, n, result);
    } else if value == "" {
      assert ChunkName(name, 0) !in after;
    }
  }

  /** Over any jar, whole or chunked older value or none, what was written is read
      back exactly when it is not empty and has time to live; else no cookie is read. */
  lemma WriteThenRead(jar: Jar, name: string, value: string, maxAge: Option<int>, result: Option<string>)
    requires Reads((jar - PresentNames(jar, name)) + (if Lives(maxAge) then Stored(name, value) else map[]),
                   name, result)
    ensures result == if value == "" || !Lives(maxAge) then None else Some(value)
  {
    if Lives(maxAge) {
      StoredThenRead(jar, name, value, result);
    } else {
      assert (jar - PresentNames(jar, name)) + map[] == jar - PresentNames(jar, name);
      ClearThenRead(jar, name, result);
    }
  }
}
