/** Values shared by every part of the model: optional values, record
    identifiers, instants, listing caps and the few JavaScript string
    operations the routers rely on (trim, toLowerCase, split). */
module Common {

  datatype Option<T> = None | Some(value: T)

  /** Record identifiers (database object ids) are opaque; naturals stand in for them. */
  type Id = nat

  /** Instants, in milliseconds since the epoch, as JavaScript `Date` values hold them. */
  type Time = int

  /** A publishing cap: a finite number, or JavaScript's `Infinity`. */
  datatype Cap = Finite(n: nat) | Unlimited {
    /** `used >= limit`, the refusal test of the create-time guards; `Infinity` is never reached. */
    predicate Reached(used: nat) {
      Finite? && used >= n
    }
  }

  /** The outcome of a request handler: a JSON status or a redirect. */
  datatype Reply = Ok | BadRequest | Forbidden | NotFound | Conflict | ServerError | Redirect(kind: string)

  /** A request-body field as it arrives: absent, `null`, or a string. */
  datatype Field = Missing | Null | Text(s: string)

  /** `String(x || '')`: the text of a field, or '' when it is absent, null or empty. */
  function TextOr(f: Field): string {
    if f.Text? then f.s else ""
  }

  function Max0(x: int): (r: nat)
    ensures r >= x && (r == 0 || r == x)
  {
    if x > 0 then x else 0
  }

  function Min(a: int, b: int): int {
    if a <= b then a else b
  }

  // ---------------------------------------------------------------------
  // Strings
  // ---------------------------------------------------------------------

  /** The white space `String.prototype.trim` removes (the ASCII part of it). */
  predicate IsSpace(c: char) {
    c == ' ' || c == '\t' || c == '\n' || c == '\r'
  }

  function TrimStart(s: string): (r: string)
    ensures |r| <= |s|
    ensures r == [] || !IsSpace(r[0])
  {
    if s != [] && IsSpace(s[0]) then TrimStart(s[1..]) else s
  }

  function TrimEnd(s: string): (r: string)
    ensures |r| <= |s|
    ensures r == [] || !IsSpace(r[|r| - 1])
  {
    if s != [] && IsSpace(s[|s| - 1]) then TrimEnd(s[..|s| - 1]) else s
  }

  /** `trimStart` drops exactly the leading white space: what it returns is a
      suffix of `s`, and everything before that suffix is white space. */
  lemma {:induction false} TrimStartDrops(s: string)
    ensures TrimStart(s) == s[|s| - |TrimStart(s)|..]
    ensures forall i :: 0 <= i < |s| - |TrimStart(s)| ==> IsSpace(s[i])
  {
    if s != [] && IsSpace(s[0]) {
      TrimStartDrops(s[1..]);
      forall i | 1 <= i < |s| - |TrimStart(s)|
        ensures IsSpace(s[i])
      {
        assert s[i] == s[1..][i - 1];
      }
    }
  }

  /** `trimEnd` drops exactly the trailing white space: what it returns is a
      prefix of `s`, and everything after that prefix is white space. */
  lemma {:induction false} TrimEndDrops(s: string)
    ensures TrimEnd(s) == s[..|TrimEnd(s)|]
    ensures forall i :: |TrimEnd(s)| <= i < |s| ==> IsSpace(s[i])
  {
    if s != [] && IsSpace(s[|s| - 1]) {
      TrimEndDrops(s[..|s| - 1]);
      forall i | |TrimEnd(s)| <= i < |s| - 1
        ensures IsSpace(s[i])
      {
        assert s[i] == s[..|s| - 1][i];
      }
    }
  }

  /** `s.trim()`: `s` without the white space at either end. */
  function Trim(s: string): (r: string)
    ensures r == [] || (!IsSpace(r[0]) && !IsSpace(r[|r| - 1]))
    ensures |r| <= |s|
  {
    var t := TrimStart(s);
    TrimEndDrops(t);
    TrimEnd(t)
  }

  lemma {:induction false} TrimStartKeeps(s: string)
    requires s == [] || !IsSpace(s[0])
    ensures TrimStart(s) == s
  {
  }

  lemma {:induction false} TrimEndKeeps(s: string)
    requires s == [] || !IsSpace(s[|s| - 1])
    ensures TrimEnd(s) == s
  {
  }

  /** Trimming twice is trimming once. */
  lemma {:induction false} TrimIdempotent(s: string)
    ensures Trim(Trim(s)) == Trim(s)
  {
    var r := Trim(s);
    TrimStartKeeps(r);
    TrimEndKeeps(r);
  }

  function LowerChar(c: char): char {
    if 'A' <= c <= 'Z' then (c as int + 32) as char else c
  }

  /** `s.toLowerCase()` on the ASCII letters. */
  function ToLower(s: string): (r: string)
    ensures |r| == |s|
    ensures forall i :: 0 <= i < |s| ==> r[i] == LowerChar(s[i])
  {
    if s == [] then [] else [LowerChar(s[0])] + ToLower(s[1..])
  }

  /** `s.split(sep)` for a one-character separator: every separator ends a part,
      so there is always one part more than there are separators. */
  function Split(s: string, sep: char): (parts: seq<string>)
    ensures |parts| >= 1
    ensures forall p :: p in parts ==> sep !in p
  {
    if s == [] then [[]]
    else
      var rest := Split(s[1..], sep);
      if s[0] == sep then [[]] + rest else [[s[0]] + rest[0]] + rest[1..]
  }

  /** `parts.join(sep)`, the inverse of `Split`. */
  function Join(parts: seq<string>, sep: char): string {
    if parts == [] then []
    else if |parts| == 1 then parts[0]
    else parts[0] + [sep] + Join(parts[1..], sep)
  }

  /** Splitting loses nothing: joining the parts again gives back the input. */
  lemma {:induction false} JoinSplit(s: string, sep: char)
    ensures Join(Split(s, sep), sep) == s
  {
    if s != [] {
      var rest := Split(s[1..], sep);
      JoinSplit(s[1..], sep);
      if s[0] == sep {
        assert Split(s, sep) == [[]] + rest;
        assert ([[]] + rest)[1..] == rest;
      } else if |rest| == 1 {
        assert Split(s, sep) == [[s[0]] + rest[0]];
      } else {
        var parts := [[s[0]] + rest[0]] + rest[1..];
        assert parts[1..] == rest[1..];
        assert Join(rest, sep) == rest[0] + [sep] + Join(rest[1..], sep);
        assert Join(parts, sep) == [s[0]] + Join(rest, sep);
        assert s == [s[0]] + s[1..];
      }
    }
  }

  /** The parts of a join of separator-free parts are those parts again. */
  lemma {:induction false} SplitJoin(parts: seq<string>, sep: char)
    requires |parts| >= 1
    requires forall p :: p in parts ==> sep !in p
    ensures Split(Join(parts, sep), sep) == parts
  {
    if |parts| == 1 {
      SplitSepFree(parts[0], sep);
    } else {
      var tail := parts[1..];
      assert forall p :: p in tail ==> p in parts;
      SplitJoin(tail, sep);
      SplitPrefix(parts[0], [sep] + Join(tail, sep), sep);
      var j := Join(tail, sep);
      assert Join(parts, sep) == parts[0] + ([sep] + j);
      assert ([sep] + j)[1..] == j;
      var st := Split([sep] + j, sep);
      assert st == [[]] + tail;
      assert st[0] == [] && st[1..] == tail;
      assert parts[0] + st[0] == parts[0];
      assert parts == [parts[0]] + tail;
    }
  }

  lemma {:induction false} SplitSepFree(s: string, sep: char)
    requires sep !in s
    ensures Split(s, sep) == [s]
  {
    if s != [] {
      assert sep !in s[1..];
      SplitSepFree(s[1..], sep);
      assert s == [s[0]] + s[1..];
    }
  }

  /** A separator-free prefix is glued onto the first part of what follows it. */
  lemma {:induction false} SplitPrefix(p: string, t: string, sep: char)
    requires sep !in p
    ensures Split(p + t, sep) == [p + Split(t, sep)[0]] + Split(t, sep)[1..]
  {
    if p != [] {
      var st := Split(t, sep);
      assert (p + t)[0] == p[0] && p[0] != sep;
      assert (p + t)[1..] == p[1..] + t;
      assert sep !in p[1..];
      SplitPrefix(p[1..], t, sep);
      var rest := Split(p[1..] + t, sep);
      assert rest == [p[1..] + st[0]] + st[1..];
      assert Split(p + t, sep) == [[p[0]] + rest[0]] + rest[1..];
      assert [p[0]] + (p[1..] + st[0]) == p + st[0];
      assert rest[1..] == st[1..];
      assert rest[0] == p[1..] + st[0];
    } else {
      var st := Split(t, sep);
      assert p + t == t;
      assert p + st[0] == st[0];
      assert st == [st[0]] + st[1..];
    }
  }

  /** `arr.map(s => s.trim()).filter(Boolean)`: the trimmed parts that are not empty, in order. */
  function TrimmedNonEmpty(parts: seq<string>): (r: seq<string>)
    ensures |r| <= |parts|
  {
    if parts == [] then []
    else
      var rest := TrimmedNonEmpty(parts[1..]);
      var t := Trim(parts[0]);
      if t == [] then rest else [t] + rest
  }

  /** `parts.map(s => s.trim())`. */
  function Trims(parts: seq<string>): (r: seq<string>)
    ensures |r| == |parts|
  {
    seq(|parts|, i requires 0 <= i < |parts| => Trim(parts[i]))
  }

  /** `arr.filter(Boolean)` on strings: the non-empty ones, in order. */
  function NonBlank(parts: seq<string>): (r: seq<string>)
    ensures |r| <= |parts|
    ensures forall q :: q in r ==> q != [] && q in parts
  {
    if parts == [] then []
    else (if parts[0] == [] then [] else [parts[0]]) + NonBlank(parts[1..])
  }

  /** Trimming and filtering in one pass is trimming every part, then dropping
      the empty ones: same strings, same order, same repetitions. */
  lemma {:induction false} TrimmedNonEmptyIsTrimThenFilter(parts: seq<string>)
    ensures TrimmedNonEmpty(parts) == NonBlank(Trims(parts))
  {
    if parts != [] {
      TrimmedNonEmptyIsTrimThenFilter(parts[1..]);
      assert Trims(parts)[1..] == Trims(parts[1..]);
    }
  }

  /** Every kept part is trimmed and not empty. */
  lemma {:induction false} TrimmedNonEmptyAreTrimmed(parts: seq<string>)
    ensures forall q :: q in TrimmedNonEmpty(parts) ==> q != [] && Trim(q) == q
  {
    if parts != [] {
      TrimmedNonEmptyAreTrimmed(parts[1..]);
      TrimIdempotent(parts[0]);
    }
  }

  /** Every part that is not blank is kept, trimmed. */
  lemma {:induction false} TrimmedNonEmptyKeeps(parts: seq<string>)
    ensures forall i :: 0 <= i < |parts| && Trim(parts[i]) != [] ==> Trim(parts[i]) in TrimmedNonEmpty(parts)
  {
    if parts != [] {
      TrimmedNonEmptyKeeps(parts[1..]);
      forall i | 0 < i < |parts| && Trim(parts[i]) != []
        ensures Trim(parts[i]) in TrimmedNonEmpty(parts)
      {
        assert parts[i] == parts[1..][i - 1];
      }
    }
  }

  /** Nothing is kept that is not the trimmed form of some part. */
  lemma {:induction false} TrimmedNonEmptyFromParts(parts: seq<string>)
    ensures forall q :: q in TrimmedNonEmpty(parts) ==> q in Trims(parts)
  {
    if parts != [] {
      TrimmedNonEmptyFromParts(parts[1..]);
      assert Trims(parts) == [Trim(parts[0])] + Trims(parts[1..]);
    }
  }
}
