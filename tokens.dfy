/** The start-up credential check: which of the three configuration
    variables are missing, and whether the bot must stop. */
module Tokens {
  import opened JsonValue

  /** The outcome of the check: stop (the process exits with code 0) naming
      the missing variables, or go on into the polling loop. */
  datatype TokenCheck = Stop(missing: string) | Proceed

  /** The exit code the bot stops with when a variable is missing. */
  const StopExitCode: int := 0

  /** The three variables, in the order the check lists them, with their values. */
  function Required(practicum: Option<string>, telegram: Option<string>, chatId: Option<string>)
    : seq<(string, Option<string>)>
  {
    [("PRACTICUM_TOKEN", practicum), ("TELEGRAM_TOKEN", telegram), ("TELEGRAM_CHAT_ID", chatId)]
  }

  /** `r` keeps some of the elements of `s`, in the order they have in `s`. */
  ghost predicate IsSubsequence(r: seq<string>, s: seq<string>)
    decreases |s|
  {
    r == [] || (s != [] && ((r[0] == s[0] && IsSubsequence(r[1..], s[1..])) || IsSubsequence(r, s[1..])))
  }

  function Names(vars: seq<(string, Option<string>)>): seq<string> {
    seq(|vars|, i requires 0 <= i < |vars| => vars[i].0)
  }

  /** The comprehension `[k for k, v in vars if v is None]`: every name whose
      value is `None`, in order; a value that is present, even an empty
      string, does not make its name missing. */
  function Missing(vars: seq<(string, Option<string>)>): (r: seq<string>)
    ensures forall k :: k in r <==> (k, None) in vars
    ensures IsSubsequence(r, Names(vars))
    decreases |vars|
  {
    if vars == [] then []
    else
      var rest := Missing(vars[1..]);
      assert Names(vars)[1..] == Names(vars[1..]);
      assert forall k :: (k, None) in vars <==> (k, None) == vars[0] || (k, None) in vars[1..];
      if vars[0].1 == None then [vars[0].0] + rest else rest
  }

  /** `', '.join(xs)`. */
  function Join(xs: seq<string>): (r: string)
    ensures xs == [] ==> r == ""
    ensures (forall i :: 0 <= i < |xs| ==> xs[i] != "") ==> (r == "" <==> xs == [])
    decreases |xs|
  {
    if xs == [] then "" else if |xs| == 1 then xs[0] else xs[0] + ", " + Join(xs[1..])
  }

  /** `s.split(', ')`: the pieces of `s` between occurrences of ", ". */
  function Split(s: string): (r: seq<string>)
    ensures |r| >= 1
    decreases |s|
  {
    if s == [] then [""]
    else if |s| >= 2 && s[0] == ',' && s[1] == ' ' then [""] + Split(s[2..])
    else
      var rest := Split(s[1..]);
      [[s[0]] + rest[0]] + rest[1..]
  }

  /** A piece without a comma is not split. */
  lemma {:induction false} SplitNoSeparator(x: string)
    requires ',' !in x
    ensures Split(x) == [x]
    decreases |x|
  {
    if x != [] {
      SplitNoSeparator(x[1..]);
      assert [x[0]] + x[1..] == x;
    }
  }

  /** A comma-free piece followed by ", " comes off as the first element. */
  lemma {:induction false} SplitAfterPiece(x: string, t: string)
    requires ',' !in x
    ensures Split(x + ", " + t) == [x] + Split(t)
    decreases |x|
  {
    var s := x + ", " + t;
    if x == [] {
      assert s == ", " + t;
      assert s[2..] == t;
    } else {
      assert s[0] == x[0];
      assert s[1..] == x[1..] + ", " + t;
      SplitAfterPiece(x[1..], t);
      assert [x[0]] + x[1..] == x;
    }
  }

  /** Joining comma-free names with ", " and splitting the result again
      gives back exactly the names, so the joined text lists each of them. */
  lemma {:induction false} SplitJoin(xs: seq<string>)
    requires xs != []
    requires forall i :: 0 <= i < |xs| ==> ',' !in xs[i]
    ensures Split(Join(xs)) == xs
    decreases |xs|
  {
    if |xs| == 1 {
      SplitNoSeparator(xs[0]);
    } else {
      SplitJoin(xs[1..]);
      SplitAfterPiece(xs[0], Join(xs[1..]));
      assert [xs[0]] + xs[1..] == xs;
    }
  }

  /** The names of the missing variables, in the fixed order. */
  function MissingNames(practicum: Option<string>, telegram: Option<string>, chatId: Option<string>)
    : (r: seq<string>)
    ensures "PRACTICUM_TOKEN" in r <==> practicum == None
    ensures "TELEGRAM_TOKEN" in r <==> telegram == None
    ensures "TELEGRAM_CHAT_ID" in r <==> chatId == None
    ensures forall k :: k in r ==> k in ["PRACTICUM_TOKEN", "TELEGRAM_TOKEN", "TELEGRAM_CHAT_ID"]
    ensures IsSubsequence(r, ["PRACTICUM_TOKEN", "TELEGRAM_TOKEN", "TELEGRAM_CHAT_ID"])
  {
    var vars := Required(practicum, telegram, chatId);
    assert Names(vars) == ["PRACTICUM_TOKEN", "TELEGRAM_TOKEN", "TELEGRAM_CHAT_ID"];
    Missing(vars)
  }

  /** The variable names are non-empty and contain no comma. */
  lemma PlainNames(r: seq<string>)
    requires forall k :: k in r ==> k in ["PRACTICUM_TOKEN", "TELEGRAM_TOKEN", "TELEGRAM_CHAT_ID"]
    ensures forall i :: 0 <= i < |r| ==> r[i] != "" && ',' !in r[i]
  {
    assert ',' !in "PRACTICUM_TOKEN" && ',' !in "TELEGRAM_TOKEN" && ',' !in "TELEGRAM_CHAT_ID";
    forall i | 0 <= i < |r| ensures r[i] != "" && ',' !in r[i] {
      assert r[i] in r;
    }
  }

  /** `check_tokens`: stop exactly when some variable is `None`, and the
      stop message, split at ", ", is exactly the list of missing names in
      the fixed order (all of them, not just the first). */
  function CheckTokens(practicum: Option<string>, telegram: Option<string>, chatId: Option<string>)
    : (r: TokenCheck)
    ensures r.Stop? <==> (practicum == None || telegram == None || chatId == None)
    ensures r.Stop? ==> Split(r.missing) == MissingNames(practicum, telegram, chatId)
  {
    var names := MissingNames(practicum, telegram, chatId);
    PlainNames(names);
    var errorStr := Join(names);
    if errorStr != "" then
      SplitJoin(names);
      Stop(errorStr)
    else
      Proceed
  }

  lemma MissingAllThree()
    ensures MissingNames(None, None, None) == ["PRACTICUM_TOKEN", "TELEGRAM_TOKEN", "TELEGRAM_CHAT_ID"]
  {
  }

  lemma JoinAllThree()
    ensures Join(["PRACTICUM_TOKEN", "TELEGRAM_TOKEN", "TELEGRAM_CHAT_ID"])
         == "PRACTICUM_TOKEN, TELEGRAM_TOKEN, TELEGRAM_CHAT_ID"
  {
    var names: seq<string> := ["PRACTICUM_TOKEN", "TELEGRAM_TOKEN", "TELEGRAM_CHAT_ID"];
    assert names[1..] == ["TELEGRAM_TOKEN", "TELEGRAM_CHAT_ID"];
    assert names[1..][1..] == ["TELEGRAM_CHAT_ID"];
  }

  /** With every variable unset the message names all three, in order. */
  lemma AllMissing()
    ensures CheckTokens(None, None, None) == Stop("PRACTICUM_TOKEN, TELEGRAM_TOKEN, TELEGRAM_CHAT_ID")
  {
    MissingAllThree();
    JoinAllThree();
  }
}
