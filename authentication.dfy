/**
 * The `authenticate` middleware of the readings routes: the bearer token is
 * the second space-separated word of the Authorization header; a missing or
 * empty token is refused with 401 before the token is verified, a token the
 * verifier rejects with 403.
 */
module Authentication {
  import opened Wrappers

  type UserId = string

  const Space: char := ' '
  const NoTokenMessage: string := "No token provided"
  const InvalidTokenMessage: string := "Invalid token"

  /** JavaScript's `s.split(sep)` for a one-character separator: never empty, "" gives [""]. */
  function Split(s: string, sep: char): (parts: seq<string>)
    ensures |parts| >= 1
    ensures forall i :: 0 <= i < |parts| ==> sep !in parts[i]
    decreases |s|
  {
    if s == [] then [[]]
    else
      var rest := Split(s[1..], sep);
      if s[0] == sep then [[]] + rest
      else [[s[0]] + rest[0]] + rest[1..]
  }

  /** `parts.join(sep)`: the inverse of Split. */
  function Join(parts: seq<string>, sep: char): string
    requires |parts| >= 1
    decreases |parts|
  {
    if |parts| == 1 then parts[0] else parts[0] + [sep] + Join(parts[1..], sep)
  }

  /** Joining the pieces of a split gives back the string. */
  lemma {:induction false} JoinSplit(s: string, sep: char)
    ensures Join(Split(s, sep), sep) == s
    decreases |s|
  {
    if s != [] {
      JoinSplit(s[1..], sep);
      var rest := Split(s[1..], sep);
      if s[0] != sep && |rest| > 1 {
        assert ([[s[0]] + rest[0]] + rest[1..])[1..] == rest[1..];
      }
    }
  }

  /** Splitting a join of separator-free pieces gives back the pieces. */
  lemma {:induction false} SplitJoin(parts: seq<string>, sep: char)
    requires |parts| >= 1
    requires forall i :: 0 <= i < |parts| ==> sep !in parts[i]
    ensures Split(Join(parts, sep), sep) == parts
    decreases |parts|, |parts[0]|
  {
    var head := parts[0];
    if head == [] {
      if |parts| > 1 {
        SplitJoin(parts[1..], sep);
        assert Join(parts, sep) == [sep] + Join(parts[1..], sep);
        assert ([sep] + Join(parts[1..], sep))[1..] == Join(parts[1..], sep);
        assert [[]] + parts[1..] == parts;
      }
    } else {
      var parts' := [head[1..]] + parts[1..];
      assert head[0] != sep by { assert head[0] in parts[0]; }
      assert forall i :: 0 <= i < |parts'| ==> sep !in parts'[i] by {
        forall x | x in head[1..] ensures x in head { }
      }
      SplitJoin(parts', sep);
      assert parts'[1..] == parts[1..];
      if |parts| == 1 {
        assert Join(parts, sep) == [head[0]] + Join(parts', sep);
      } else {
        assert Join(parts, sep) == [head[0]] + Join(parts', sep);
      }
      assert Join(parts, sep)[1..] == Join(parts', sep);
      assert [head[0]] + head[1..] == head;
      assert [[head[0]] + head[1..]] + parts[1..] == parts;
    }
  }

  /** `req.headers.authorization?.split(' ')[1]`: undefined when there is no header or no second word. */
  function BearerToken(header: Option<string>): (token: Option<string>)
    ensures token.Some? <==> header.Some? && Space in header.value
    ensures token.Some? ==> Space !in token.value
  {
    match header
    case None => None
    case Some(h) =>
      var parts := Split(h, Space);
      SpaceSplits(h);
      if |parts| >= 2 then Some(parts[1]) else None
  }

  /** A string splits into two or more pieces exactly when it holds the separator. */
  lemma {:induction false} SpaceSplits(s: string)
    ensures |Split(s, Space)| >= 2 <==> Space in s
    decreases |s|
  {
    if s != [] {
      SpaceSplits(s[1..]);
    }
  }

  /** `h` is a space-free first word, one space, `word`, then nothing or a space and the rest. */
  ghost predicate SecondWord(h: string, first: string, word: string, rest: string) {
    && Space !in first
    && h == first + [Space] + word + rest
    && (rest == [] || rest[0] == Space)
  }

  /** The token is exactly the second space-separated word of the header. */
  lemma TokenIsSecondWord(header: Option<string>)
    requires BearerToken(header).Some?
    ensures exists first, rest :: SecondWord(header.value, first, BearerToken(header).value, rest)
  {
    var h := header.value;
    var parts := Split(h, Space);
    var token := parts[1];
    JoinSplit(h, Space);
    assert h == parts[0] + [Space] + Join(parts[1..], Space);
    var rest: string;
    if |parts| == 2 {
      rest := [];
      assert Join(parts[1..], Space) == token;
    } else {
      rest := [Space] + Join(parts[2..], Space);
      assert parts[1..][1..] == parts[2..];
      assert Join(parts[1..], Space) == token + rest;
    }
    assert Space !in parts[0];
    assert SecondWord(h, parts[0], token, rest);
  }

  datatype AuthResult = Unauthorized(message: string) | Forbidden(message: string) | Authorized(userId: UserId)

  /**
   * The middleware's decision. `verify` stands for `jwt.verify` with the
   * server's secret: the user id of a valid token, None when it throws.
   */
  function Authenticate(header: Option<string>, verify: string -> Option<UserId>): (r: AuthResult)
    ensures r.Unauthorized? <==> BearerToken(header).None? || BearerToken(header).value == []
    ensures r.Unauthorized? ==> r.message == NoTokenMessage
    ensures r.Forbidden? <==> !r.Unauthorized? && verify(BearerToken(header).value).None?
    ensures r.Forbidden? ==> r.message == InvalidTokenMessage
    ensures r.Authorized? ==> verify(BearerToken(header).value) == Some(r.userId)
  {
    match BearerToken(header)
    case None => Unauthorized(NoTokenMessage)
    case Some(token) =>
      if token == [] then Unauthorized(NoTokenMessage)
      else
        match verify(token)
        case None => Forbidden(InvalidTokenMessage)
        case Some(id) => Authorized(id)
  }
}
