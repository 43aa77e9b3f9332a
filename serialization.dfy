/**
 * The text form of the lists the users screen mirrors into the store
 * (`JSON.stringify(response.data)`) and reads back on a failed fetch (`JSON.parse(stored)`).
 *
 * The model keeps the store string-valued and replaces JSON's concrete syntax by a simpler
 * self-delimiting text: every field is a token "<length>:<text>", a record is its fields in
 * declaration order, and a list is "[" + its records' tokens + "]". What the screens rely on
 * is kept: the text of a list is never empty (so a stored copy is truthy), and parsing the
 * text gives back exactly the list that was written.
 */
module Serialization {
  import opened Basics
  import opened Decimal
  import opened Remote

  /** One string as a self-delimiting token. */
  function Token(t: string): string
  {
    NatToString(|t|) + ":" + t
  }

  function EncodeTokens(ts: seq<string>): string
    decreases |ts|
  {
    if ts == [] then "" else Token(ts[0]) + EncodeTokens(ts[1..])
  }

  /** How many decimal digits `s` starts with. */
  function LeadingDigits(s: string): (k: nat)
    ensures k <= |s| && AllDigits(s[..k])
    ensures k < |s| ==> !IsDigit(s[k])
    decreases |s|
  {
    if s == [] || !IsDigit(s[0]) then 0
    else
      var k := 1 + LeadingDigits(s[1..]);
      assert s[..k] == [s[0]] + s[1..][..k - 1];
      k
  }

  /** Splits the first token off `s`, or fails when `s` does not start with a whole token. */
  function ReadToken(s: string): (r: Option<(string, string)>)
    ensures r.Some? ==> |r.value.1| < |s|
  {
    var k := LeadingDigits(s);
    if k == 0 || k == |s| || s[k] != ':' then None
    else
      var n := DigitsValue(s[..k]);
      if k + 1 + n > |s| then None else Some((s[k + 1..k + 1 + n], s[k + 1 + n..]))
  }

  function DecodeTokens(s: string): Option<seq<string>>
    decreases |s|
  {
    if s == [] then Some([])
    else
      match ReadToken(s)
      case None => None
      case Some((t, rest)) =>
        match DecodeTokens(rest)
        case None => None
        case Some(ts) => Some([t] + ts)
  }

  lemma {:induction false} LeadingDigitsBeforeColon(d: string, rest: string)
    requires AllDigits(d)
    ensures LeadingDigits(d + ":" + rest) == |d|
    decreases |d|
  {
    if d != [] {
      assert (d + ":" + rest)[1..] == d[1..] + ":" + rest;
      LeadingDigitsBeforeColon(d[1..], rest);
    }
  }

  lemma ReadTokenRoundTrip(t: string, rest: string)
    ensures ReadToken(Token(t) + rest) == Some((t, rest))
  {
    var d := NatToString(|t|);
    var s := Token(t) + rest;
    assert s == d + ":" + (t + rest);
    LeadingDigitsBeforeColon(d, t + rest);
    assert s[..|d|] == d;
    NatRoundTrip(|t|);
    assert s[|d| + 1..|d| + 1 + |t|] == t;
    assert s[|d| + 1 + |t|..] == rest;
  }

  /** Token lists survive a write and a read. */
  lemma {:induction false} TokensRoundTrip(ts: seq<string>)
    ensures DecodeTokens(EncodeTokens(ts)) == Some(ts)
    decreases |ts|
  {
    if ts != [] {
      ReadTokenRoundTrip(ts[0], EncodeTokens(ts[1..]));
      TokensRoundTrip(ts[1..]);
      assert [ts[0]] + ts[1..] == ts;
    }
  }

  /** The tokens of every record of a list, record after record. */
  function Flatten<T>(xs: seq<T>, fields: T -> seq<string>): seq<string>
    decreases |xs|
  {
    if xs == [] then [] else fields(xs[0]) + Flatten(xs[1..], fields)
  }

  /** Cuts a token list into records of `width` fields each and builds every record. */
  function Chunks<T>(ts: seq<string>, width: nat, build: seq<string> -> Option<T>): Option<seq<T>>
    requires width > 0
    decreases |ts|
  {
    if ts == [] then Some([])
    else if |ts| < width then None
    else
      match (build(ts[..width]), Chunks(ts[width..], width, build))
      case (Some(x), Some(rest)) => Some([x] + rest)
      case _ => None
  }

  lemma {:induction false} ChunksRoundTrip<T>(xs: seq<T>, fields: T -> seq<string>, width: nat, build: seq<string> -> Option<T>)
    requires width > 0
    requires forall x :: |fields(x)| == width && build(fields(x)) == Some(x)
    ensures Chunks(Flatten(xs, fields), width, build) == Some(xs)
    decreases |xs|
  {
    if xs != [] {
      var ts := Flatten(xs, fields);
      assert ts[..width] == fields(xs[0]);
      assert ts[width..] == Flatten(xs[1..], fields);
      ChunksRoundTrip(xs[1..], fields, width, build);
      assert [xs[0]] + xs[1..] == xs;
    }
  }

  /** A list of records as text: never empty, since it is bracketed. */
  function Bracket(body: string): (s: string)
    ensures s != ""
  {
    "[" + body + "]"
  }

  /** The shape of a list's text: bracketed, and so never empty (always truthy). */
  predicate IsListText(s: string)
  {
    |s| >= 2 && s[0] == '[' && s[|s| - 1] == ']'
  }

  function Unbracket(s: string): Option<string>
  {
    if |s| >= 2 && s[0] == '[' && s[|s| - 1] == ']' then Some(s[1..|s| - 1]) else None
  }

  function BoolText(b: bool): string
  {
    if b then "true" else "false"
  }

  function ParseBool(s: string): Option<bool>
  {
    if s == "true" then Some(true) else if s == "false" then Some(false) else None
  }

  function UserFields(u: User): seq<string>
  {
    [IntToString(u.id), u.name, u.email]
  }

  function UserFromFields(f: seq<string>): Option<User>
  {
    if |f| == 3 && ParseInt(f[0]).Some? then Some(User(ParseInt(f[0]).value, f[1], f[2])) else None
  }

  function TodoFields(t: Todo): seq<string>
  {
    [IntToString(t.userId), IntToString(t.id), t.title, BoolText(t.completed)]
  }

  function TodoFromFields(f: seq<string>): Option<Todo>
  {
    if |f| == 4 && ParseInt(f[0]).Some? && ParseInt(f[1]).Some? && ParseBool(f[3]).Some? then
      Some(Todo(ParseInt(f[0]).value, ParseInt(f[1]).value, f[2], ParseBool(f[3]).value))
    else None
  }

  /** `JSON.stringify(users)`. */
  function StringifyUsers(us: seq<User>): (text: string)
    ensures IsListText(text)
  {
    Bracket(EncodeTokens(Flatten(us, UserFields)))
  }

  /** `JSON.parse(text)` expecting a user list; `None` where it would throw. */
  function ParseUsers(text: string): (r: Option<seq<User>>)
    ensures r.Some? ==> IsListText(text)
  {
    match Unbracket(text)
    case None => None
    case Some(body) =>
      match DecodeTokens(body)
      case None => None
      case Some(ts) => Chunks(ts, 3, UserFromFields)
  }

  /** `JSON.stringify(todos)`. */
  function StringifyTodos(ts: seq<Todo>): (text: string)
    ensures IsListText(text)
  {
    Bracket(EncodeTokens(Flatten(ts, TodoFields)))
  }

  /** `JSON.parse(text)` expecting a todo list; `None` where it would throw. */
  function ParseTodos(text: string): (r: Option<seq<Todo>>)
    ensures r.Some? ==> IsListText(text)
  {
    match Unbracket(text)
    case None => None
    case Some(body) =>
      match DecodeTokens(body)
      case None => None
      case Some(fs) => Chunks(fs, 4, TodoFromFields)
  }

  /** A mirrored user list is non-empty text and reads back as the list that was written. */
  lemma UsersRoundTrip(us: seq<User>)
    ensures StringifyUsers(us) != ""
    ensures ParseUsers(StringifyUsers(us)) == Some(us)
  {
    var body := EncodeTokens(Flatten(us, UserFields));
    assert Unbracket(Bracket(body)) == Some(body);
    TokensRoundTrip(Flatten(us, UserFields));
    forall u: User ensures |UserFields(u)| == 3 && UserFromFields(UserFields(u)) == Some(u) {
      UserFieldsRoundTrip(u);
    }
    ChunksRoundTrip(us, UserFields, 3, UserFromFields);
  }

  /** A mirrored todo list is non-empty text and reads back as the list that was written. */
  lemma TodosRoundTrip(ts: seq<Todo>)
    ensures StringifyTodos(ts) != ""
    ensures ParseTodos(StringifyTodos(ts)) == Some(ts)
  {
    var body := EncodeTokens(Flatten(ts, TodoFields));
    assert Unbracket(Bracket(body)) == Some(body);
    TokensRoundTrip(Flatten(ts, TodoFields));
    forall t: Todo ensures |TodoFields(t)| == 4 && TodoFromFields(TodoFields(t)) == Some(t) {
      TodoFieldsRoundTrip(t);
    }
    ChunksRoundTrip(ts, TodoFields, 4, TodoFromFields);
  }

  lemma UserFieldsRoundTrip(u: User)
    ensures |UserFields(u)| == 3 && UserFromFields(UserFields(u)) == Some(u)
  {
    IntRoundTrip(u.id);
  }

  lemma TodoFieldsRoundTrip(t: Todo)
    ensures |TodoFields(t)| == 4 && TodoFromFields(TodoFields(t)) == Some(t)
  {
    IntRoundTrip(t.userId);
    IntRoundTrip(t.id);
  }
}
