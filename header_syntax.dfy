/**
  How a receiver reads the two structured header values the service emits.

  Both `Strict-Transport-Security` (section 6.1 of RFC 6797) and
  `Content-Security-Policy` (section 2.2.1 of Content Security Policy Level 3,
  "parse a serialized CSP") are lists of directives separated by `;`: the
  value is split strictly at every `;`, each piece is stripped of leading and
  trailing ASCII whitespace, and empty pieces are skipped. A CSP directive is
  then split into its name (up to the first whitespace) and its value (the
  rest, without the leading whitespace).

  Two steps of the CSP algorithm are not modelled: skipping a directive
  that is not ASCII (the round trip below demands ASCII values instead), and
  splitting the value into whitespace-separated source expressions (the
  value is kept as one string).
*/
module HeaderSyntax {
  import opened Text

  /** The trimmed pieces, with empty ones skipped: no directive the receiver keeps is empty. */
  function Cleaned(pieces: seq<string>): (r: seq<string>)
    ensures forall i :: 0 <= i < |r| ==> r[i] != ""
  {
    if |pieces| == 0 then []
    else
      var t := Trim(pieces[0]);
      (if t == "" then [] else [t]) + Cleaned(pieces[1..])
  }

  /** The directives of a `;`-separated header value, in order. */
  function DirectiveTokens(v: string): seq<string>
  {
    Cleaned(SplitOn(v, ';'))
  }

  /** Where the directive name of `token` ends: its first whitespace, or its end. */
  function NameLength(token: string): (k: nat)
    ensures k <= |token|
    ensures NoWhitespace(token[..k])
    ensures k < |token| ==> IsWhitespace(token[k])
  {
    if |token| == 0 || IsWhitespace(token[0]) then 0
    else
      var k := 1 + NameLength(token[1..]);
      assert token[..k] == [token[0]] + token[1..][..k - 1];
      k
  }

  /** A CSP directive as a (name, value) pair. */
  function SplitDirective(token: string): (string, string)
  {
    var k := NameLength(token);
    (token[..k], TrimLeft(token[k..]))
  }

  /** The (name, value) directives of a serialized policy, in order. */
  function ParsePolicy(v: string): seq<(string, string)>
  {
    var tokens := DirectiveTokens(v);
    seq(|tokens|, i requires 0 <= i < |tokens| => SplitDirective(tokens[i]))
  }

  /** When every piece trims to the matching non-empty entry of `want`, cleaning gives `want`. */
  lemma {:induction false} CleanedAll(pieces: seq<string>, want: seq<string>)
    requires |pieces| == |want|
    requires forall i :: 0 <= i < |pieces| ==> Trim(pieces[i]) == want[i] != ""
    ensures Cleaned(pieces) == want
  {
    if |pieces| > 0 {
      CleanedAll(pieces[1..], want[1..]);
      assert want == [want[0]] + want[1..];
    }
  }

  /**
    A receiver reading a `"; "`-joined list of items that hold no `;` and do
    not trim to nothing sees exactly the trimmed items, in order.
  */
  lemma TokensOfJoin(items: seq<string>)
    requires |items| >= 1
    requires forall i :: 0 <= i < |items| ==> ';' !in items[i] && Trim(items[i]) != ""
    ensures DirectiveTokens(Join(items, "; "))
         == seq(|items|, i requires 0 <= i < |items| => Trim(items[i]))
  {
    var pieces := SplitOn(Join(items, "; "), ';');
    var trimmed := seq(|items|, i requires 0 <= i < |items| => Trim(items[i]));
    SplitOnJoin(items);
    forall i | 0 <= i < |pieces| ensures Trim(pieces[i]) == trimmed[i] {
      if i >= 1 {
        assert pieces[i] == [' '] + items[i];
        TrimLeadingSpace(items[i]);
      }
    }
    CleanedAll(pieces, trimmed);
  }

  lemma {:induction false} NameLengthOf(name: string, rest: string)
    requires NoWhitespace(name)
    requires |rest| == 0 || IsWhitespace(rest[0])
    ensures NameLength(name + rest) == |name|
  {
    if |name| == 0 {
      assert name + rest == rest;
    } else {
      assert (name + rest)[0] == name[0];
      assert (name + rest)[1..] == name[1..] + rest;
      NameLengthOf(name[1..], rest);
    }
  }

  /** One `"<name> <value>"` item reads back as its name and its value, even for an empty value. */
  lemma DirectiveRoundTrip(name: string, value: string)
    requires |name| >= 1 && NoWhitespace(name)
    requires Unpadded(value)
    ensures Trim(name + " " + value) != ""
    ensures SplitDirective(Trim(name + " " + value)) == (name, value)
  {
    var item := name + " " + value;
    assert item[0] == name[0];
    if value == "" {
      assert item == name + " ";
      assert item[..|item| - 1] == name;
      assert Trim(item) == name by {
        assert TrimLeft(item) == item;
        assert item[|item| - 1] == ' ';
        assert !IsWhitespace(name[|name| - 1]);
        assert TrimRight(name) == name;
        assert TrimRight(item) == TrimRight(name);
      }
      NameLengthOf(name, "");
      assert name + "" == name;
    } else {
      assert item[|item| - 1] == value[|value| - 1];
      assert Trim(item) == item by {
        assert TrimLeft(item) == item;
      }
      NameLengthOf(name, " " + value);
      assert item == name + (" " + value);
      assert item[..|name|] == name;
      assert item[|name|..] == " " + value;
      assert (" " + value)[1..] == value;
      assert TrimLeft(" " + value) == TrimLeft(value) == value;
    }
  }

  // ---------------------------------------------------------------------------
  // Serialized policies

  /** A directive name a receiver can find again: non-empty, no whitespace, no `;`. */
  predicate DirectiveName(name: string)
  {
    |name| >= 1 && NoWhitespace(name) && ';' !in name
  }

  /** Only ASCII characters, so the directive is not skipped by a receiver. */
  predicate IsAsciiText(s: string)
  {
    forall i :: 0 <= i < |s| ==> s[i] < 128 as char
  }

  /**
    A source list that survives serialization: no `;`, no leading or trailing
    whitespace, and only ASCII characters.
  */
  predicate DirectiveValue(value: string)
  {
    ';' !in value && Unpadded(value) && IsAsciiText(value)
  }

  /** One `"<name> <value>"` item per directive. */
  function Items(ds: seq<(string, string)>): (items: seq<string>)
    ensures |items| == |ds|
  {
    seq(|ds|, i requires 0 <= i < |ds| => ds[i].0 + " " + ds[i].1)
  }

  /** A serialized policy: the directives' items joined with `"; "`. */
  function Serialize(ds: seq<(string, string)>): string
  {
    Join(Items(ds), "; ")
  }

  /**
    Splitting a serialized policy at `;` gives one piece per directive, in
    order, each directive present even when its value is empty.
  */
  lemma SerializedPieces(ds: seq<(string, string)>)
    requires |ds| >= 1
    requires forall i :: 0 <= i < |ds| ==> ';' !in ds[i].0 && ';' !in ds[i].1
    ensures var pieces := SplitOn(Serialize(ds), ';');
      && |pieces| == |ds|
      && forall i :: 0 <= i < |ds| ==> pieces[i] == (if i == 0 then "" else " ") + ds[i].0 + " " + ds[i].1
  {
    var items := Items(ds);
    forall i | 0 <= i < |ds| ensures ';' !in items[i] {
      assert items[i] == ds[i].0 + " " + ds[i].1;
    }
    SplitOnJoin(items);
  }

  /**
    A receiver parsing a serialized policy (section 2.2.1 of Content
    Security Policy Level 3) gets every directive back with its value, in
    order, as long as the names and values survive serialization.
  */
  lemma PolicyRoundTrip(ds: seq<(string, string)>)
    requires |ds| >= 1
    requires forall i :: 0 <= i < |ds| ==> DirectiveName(ds[i].0) && DirectiveValue(ds[i].1)
    ensures ParsePolicy(Serialize(ds)) == ds
  {
    var items := Items(ds);
    forall i | 0 <= i < |ds|
      ensures ';' !in items[i] && Trim(items[i]) != ""
      ensures SplitDirective(Trim(items[i])) == ds[i]
    {
      DirectiveRoundTrip(ds[i].0, ds[i].1);
    }
    TokensOfJoin(items);
  }
}
