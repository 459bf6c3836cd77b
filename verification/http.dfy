/**
 * The message vocabulary shared by the pipeline, the client and the cURL adapter:
 * immutable request and response values with an ordered header list whose names
 * compare case-insensitively, the exceptions the core raises, and the shape of
 * an adapter callable.
 */
module Http {
  import opened Wrappers

  /** ASCII case folding, the comparison used for header names and verb names. */
  function LowerChar(c: char): char {
    if 'A' <= c <= 'Z' then (c as int + 32) as char else c
  }

  function UpperChar(c: char): char {
    if 'a' <= c <= 'z' then (c as int - 32) as char else c
  }

  function Lower(s: string): string {
    seq(|s|, i requires 0 <= i < |s| => LowerChar(s[i]))
  }

  function Upper(s: string): string {
    seq(|s|, i requires 0 <= i < |s| => UpperChar(s[i]))
  }

  /** Upper-casing a second time changes nothing. */
  lemma UpperIdempotent(s: string)
    ensures Upper(Upper(s)) == Upper(s)
  {
    assert forall i :: 0 <= i < |s| ==> UpperChar(UpperChar(s[i])) == UpperChar(s[i]);
  }

  /** Two header names denote the same field when they agree up to ASCII case. */
  predicate SameName(a: string, b: string) {
    Lower(a) == Lower(b)
  }

  /** The parts joined with the separator between each two. */
  function Join(parts: seq<string>, sep: string): string
    decreases |parts|
  {
    if |parts| == 0 then ""
    else if |parts| == 1 then parts[0]
    else parts[0] + sep + Join(parts[1..], sep)
  }

  datatype Header = Header(name: string, values: seq<string>)

  /** Header fields in the order the message keeps them. */
  type Headers = seq<Header>

  predicate HasField(hs: Headers, name: string)
    decreases |hs|
  {
    hs != [] && (SameName(hs[0].name, name) || HasField(hs[1..], name))
  }

  /** The values of the first field called `name`, or none. */
  function Field(hs: Headers, name: string): seq<string>
    decreases |hs|
  {
    if hs == [] then []
    else if SameName(hs[0].name, name) then hs[0].values
    else Field(hs[1..], name)
  }

  /** The list with every field called `name` removed. */
  function Without(hs: Headers, name: string): Headers
    decreases |hs|
  {
    if hs == [] then []
    else (if SameName(hs[0].name, name) then [] else [hs[0]]) + Without(hs[1..], name)
  }

  /** Replace any field called `name` by one new field, placed last. */
  function With(hs: Headers, name: string, values: seq<string>): Headers {
    Without(hs, name) + [Header(name, values)]
  }

  lemma {:induction false} WithoutAppend(a: Headers, b: Headers, name: string)
    ensures Without(a + b, name) == Without(a, name) + Without(b, name)
    decreases |a|
  {
    if a == [] {
      assert a + b == b;
    } else {
      assert (a + b)[0] == a[0];
      assert (a + b)[1..] == a[1..] + b;
      WithoutAppend(a[1..], b, name);
    }
  }

  lemma {:induction false} HasFieldAppend(a: Headers, b: Headers, name: string)
    ensures HasField(a + b, name) <==> HasField(a, name) || HasField(b, name)
    ensures Field(a + b, name) == if HasField(a, name) then Field(a, name) else Field(b, name)
    decreases |a|
  {
    if a == [] {
      assert a + b == b;
    } else {
      assert (a + b)[0] == a[0];
      assert (a + b)[1..] == a[1..] + b;
      HasFieldAppend(a[1..], b, name);
    }
  }

  /** After removing `name`, a field is present exactly when it was present and is not `name`. */
  lemma {:induction false} WithoutHasField(hs: Headers, name: string, other: string)
    ensures HasField(Without(hs, name), other) <==> HasField(hs, other) && !SameName(name, other)
    ensures !SameName(name, other) ==> Field(Without(hs, name), other) == Field(hs, other)
    decreases |hs|
  {
    if hs != [] {
      WithoutHasField(hs[1..], name, other);
      var head := if SameName(hs[0].name, name) then [] else [hs[0]];
      HasFieldAppend(head, Without(hs[1..], name), other);
      if head != [] {
        assert head[1..] == [];
      }
    }
  }

  /** Removing `name` keeps every field not called `name`. */
  lemma {:induction false} WithoutKeeps(hs: Headers, name: string, h: Header)
    requires h in hs && !SameName(h.name, name)
    ensures h in Without(hs, name)
    decreases |hs|
  {
    var head := if SameName(hs[0].name, name) then [] else [hs[0]];
    assert Without(hs, name) == head + Without(hs[1..], name);
    if h != hs[0] {
      WithoutKeeps(hs[1..], name, h);
    }
  }

  lemma {:induction false} FieldAbsent(hs: Headers, name: string)
    requires !HasField(hs, name)
    ensures Field(hs, name) == []
    decreases |hs|
  {
    if hs != [] {
      FieldAbsent(hs[1..], name);
    }
  }

  /**
   * `withHeader`: afterwards the field is present with exactly the new values,
   * and every field with another name reads as before.
   */
  lemma WithField(hs: Headers, name: string, values: seq<string>, other: string)
    ensures HasField(With(hs, name, values), other) <==> SameName(name, other) || HasField(hs, other)
    ensures SameName(name, other) ==> Field(With(hs, name, values), other) == values
    ensures !SameName(name, other) ==> Field(With(hs, name, values), other) == Field(hs, other)
  {
    var kept := Without(hs, name);
    WithoutHasField(hs, name, other);
    HasFieldAppend(kept, [Header(name, values)], other);
    assert [Header(name, values)][1..] == [];
    if SameName(name, other) {
      FieldAbsent(kept, other);
    } else if !HasField(hs, other) {
      FieldAbsent(hs, other);
    }
  }

  lemma {:induction false} WithoutWithout(hs: Headers, a: string, b: string)
    requires SameName(a, b)
    ensures Without(Without(hs, a), b) == Without(hs, b)
    decreases |hs|
  {
    if hs != [] {
      WithoutWithout(hs[1..], a, b);
      var head := if SameName(hs[0].name, a) then [] else [hs[0]];
      WithoutAppend(head, Without(hs[1..], a), b);
      if head != [] {
        assert head[1..] == [];
      }
    }
  }

  /** A later `withHeader` of the same name (in any case) replaces an earlier one entirely. */
  lemma WithOverrides(hs: Headers, name: string, values: seq<string>, again: string, latest: seq<string>)
    requires SameName(name, again)
    ensures With(With(hs, name, values), again, latest) == With(hs, again, latest)
  {
    WithoutAppend(Without(hs, name), [Header(name, values)], again);
    assert Without([Header(name, values)], again) == [] by {
      assert [Header(name, values)][1..] == [];
    }
    WithoutWithout(hs, name, again);
  }

  /** A request as the message library gives it: immutable, edits return copies. */
  datatype Request = Request(verb: string, uri: string, headers: Headers, body: string) {
    predicate HasHeader(name: string) {
      HasField(headers, name)
    }

    function WithoutHeader(name: string): Request {
      this.(headers := Without(headers, name))
    }

    function WithHeader(name: string, values: seq<string>): Request {
      this.(headers := With(headers, name, values))
    }
  }

  /** A response as the message library gives it: immutable, edits return copies. */
  datatype Response = Response(status: int, reason: string, version: string, headers: Headers, body: string) {
    predicate HasHeader(name: string) {
      HasField(headers, name)
    }

    function HeaderLine(name: string): string {
      Join(Field(headers, name), ", ")
    }

    function WithHeader(name: string, values: seq<string>): Response {
      this.(headers := With(headers, name, values))
    }

    function WithStatus(code: int, reasonPhrase: string): Response {
      this.(status := code, reason := reasonPhrase)
    }

    function WithProtocolVersion(v: string): Response {
      this.(version := v)
    }
  }

  /** The exceptions that leave the core. */
  datatype Error =
    | RuntimeException(message: string, code: int)
    | BadMethodCallException(message: string)
      /** PHP's own refusal to bind arguments to a parameter list (too few, or of the wrong type). */
    | ArgumentError(message: string)

  /** The values a cURL option map may hold. */
  datatype OptionValue = Flag(on: bool) | Int(n: int) | Text(text: string) | Lines(lines: seq<string>) | TempFile(content: string)

  /** A PHP array of options keyed by integer option numbers. */
  type Options = map<int, OptionValue>

  /** What an adapter callable hands back: a falsy value, a response, or some other truthy value. */
  datatype Returned = Falsy | ResponseValue(response: Response) | NotAResponse

  /** An adapter: called with the request, the prototype response and the request options. */
  type Adapter = (Request, Response, Options) -> Result<Returned, Error>
}
