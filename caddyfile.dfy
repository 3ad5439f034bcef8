/** What the two `UnmarshalCaddyfile` methods see of Caddy's token dispenser.
    Both walk their block with `for d.Next() { ... d.Args(&value) ... }`:
    `Next` moves to the next token, which becomes the key, and `Args` with
    one target takes the token after it only when that token is on the same
    line and is not a block opening `{`. A `{` is left in place, so it
    becomes the next key. */
module Caddyfile {
  import opened Basics

  /** A Caddyfile token and the line it starts on. */
  datatype Token = Token(text: string, line: nat)

  /** One turn of the dispenser loop: the key token and, when the next token
      is on the same line and is not `{`, that token as the argument. */
  datatype Entry = Entry(key: string, arg: Option<string>)

  /** `NextArg` takes the token after the key only when it is on the same
      line and does not open a block. */
  predicate TakesArgument(key: Token, next: Token) {
    next.line == key.line && next.text != "{"
  }

  /** The turns the loop makes over a token stream. */
  function Entries(tokens: seq<Token>): (es: seq<Entry>)
    ensures |es| <= |tokens|
    decreases |tokens|
  {
    if tokens == [] then []
    else if |tokens| >= 2 && TakesArgument(tokens[0], tokens[1]) then
      [Entry(tokens[0].text, Some(tokens[1].text))] + Entries(tokens[2..])
    else
      [Entry(tokens[0].text, None)] + Entries(tokens[1..])
  }

  /** The texts of a token stream, in order. */
  function Texts(tokens: seq<Token>): seq<string>
    decreases |tokens|
  {
    if tokens == [] then [] else [tokens[0].text] + Texts(tokens[1..])
  }

  /** The texts an entry consumed: its key, then its argument if it has one. */
  function EntryTexts(e: Entry): seq<string> {
    match e.arg
    case None => [e.key]
    case Some(a) => [e.key, a]
  }

  function AllTexts(es: seq<Entry>): seq<string>
    decreases |es|
  {
    if es == [] then [] else EntryTexts(es[0]) + AllTexts(es[1..])
  }

  /** Every token is consumed exactly once, as a key or as the argument of
      the key before it, and in order. */
  lemma {:induction false} EntriesConsumeAll(tokens: seq<Token>)
    ensures AllTexts(Entries(tokens)) == Texts(tokens)
    decreases |tokens|
  {
    if tokens == [] {
    } else {
      var e := if |tokens| >= 2 && TakesArgument(tokens[0], tokens[1])
               then Entry(tokens[0].text, Some(tokens[1].text)) else Entry(tokens[0].text, None);
      var rest := tokens[|EntryTexts(e)|..];
      assert Entries(tokens) == [e] + Entries(rest);
      EntriesConsumeAll(rest);
      var es := Entries(tokens);
      assert es[0] == e && es[1..] == Entries(rest);
      assert AllTexts(es) == EntryTexts(e) + AllTexts(Entries(rest));
      if e.arg.Some? {
        assert tokens[1..][1..] == rest;
        assert Texts(tokens) == [tokens[0].text] + ([tokens[1].text] + Texts(rest));
      } else {
        assert tokens[1..] == rest;
      }
    }
  }

  /** A key followed on its own line by a value becomes one entry carrying
      that value, unless the value is `{`: then the key gets no argument and
      the `{` is the next key. A key alone on its line becomes an entry
      without an argument. */
  lemma EntriesOfLine(key: Token, value: Token, rest: seq<Token>)
    requires value.line == key.line
    ensures value.text != "{" ==>
      Entries([key, value] + rest) == [Entry(key.text, Some(value.text))] + Entries(rest)
    ensures value.text == "{" ==>
      Entries([key, value] + rest) == [Entry(key.text, None)] + Entries([value] + rest)
    ensures rest == [] || rest[0].line != key.line ==>
      Entries([key] + rest) == [Entry(key.text, None)] + Entries(rest)
  {
    assert ([key, value] + rest)[2..] == rest;
    assert ([key, value] + rest)[1..] == [value] + rest;
    assert ([key] + rest)[1..] == rest;
  }
}
