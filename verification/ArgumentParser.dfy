/** Command-line strings: `str2arg`, which splits a command into arguments, and `arg2str`, its printer.

    The parser cuts the text at every double quote with one `getline` loop, cuts the pieces that lie outside quotes at
    every space with a second one, and then glues a token that ends in a backslash to its successor. The specification
    is a one-pass scanner with an in-quotes flag (`Scan`) followed by a right fold (`Merge`). */
module ArgumentParser {
  import opened Events

  const QUOTE: char := '\"'
  const SPACE: char := ' '
  const BACKSLASH: char := '\\'

  // ---------------------------------------------------------------------------------------------------------------
  // Splitting with getline

  /** The position of the first `delim` in `s`, or `|s|` when there is none. */
  function Find(s: string, delim: char): (n: nat)
    ensures n <= |s|
    ensures delim !in s[..n]
    ensures n < |s| ==> s[n] == delim
  {
    if s == "" || s[0] == delim then 0 else 1 + Find(s[1..], delim)
  }

  /** What repeated `getline` yields: a piece for each delimiter, and one more for a nonempty remainder. */
  function Split(s: string, delim: char): seq<string> {
    if s == "" then []
    else
      var n := Find(s, delim);
      [s[..n]] + (if n == |s| then [] else Split(s[n + 1..], delim))
  }

  /** The `getline` loop; `stream` is what the string stream has not delivered yet. */
  method SplitLines(s: string, delim: char) returns (elems: seq<string>)
    ensures elems == Split(s, delim)
  {
    elems := [];
    var stream := s;
    while stream != ""
      invariant elems + Split(stream, delim) == Split(s, delim)
      decreases |stream|
    {
      var n := Find(stream, delim);
      var item := stream[..n];
      var rest := if n == |stream| then "" else stream[n + 1..];
      assert elems + ([item] + Split(rest, delim)) == elems + [item] + Split(rest, delim);
      elems := elems + [item];
      stream := rest;
    }
  }

  // ---------------------------------------------------------------------------------------------------------------
  // The specification: a one-pass scanner and a right fold

  function Flush(cur: string): seq<string> {
    if cur == "" then [] else [cur]
  }

  /** One-pass scanner. A quote ends the current token and toggles `quoted`; a space ends it only outside quotes. */
  function Scan(s: string, quoted: bool, cur: string): seq<string> {
    if s == "" then Flush(cur)
    else if s[0] == QUOTE then Flush(cur) + Scan(s[1..], !quoted, "")
    else if s[0] == SPACE && !quoted then Flush(cur) + Scan(s[1..], quoted, "")
    else Scan(s[1..], quoted, cur + [s[0]])
  }

  predicate EndsInBackslash(token: string) {
    token != "" && token[|token| - 1] == BACKSLASH
  }

  /** A token ending in a backslash loses it and is joined, by one space, to what the rest begins with. */
  function Merge(tokens: seq<string>): (args: seq<string>)
    ensures tokens != [] ==> args != []
  {
    if |tokens| <= 1 then tokens
    else
      var rest := Merge(tokens[1..]);
      if EndsInBackslash(tokens[0]) then [tokens[0][..|tokens[0]| - 1] + " " + rest[0]] + rest[1..]
      else [tokens[0]] + rest
  }

  function Parse(s: string): seq<string> {
    Merge(Scan(s, false, ""))
  }

  // ---------------------------------------------------------------------------------------------------------------
  // The two-level split agrees with the scanner

  function NonEmpty(pieces: seq<string>): seq<string> {
    if pieces == [] then [] else Flush(pieces[0]) + NonEmpty(pieces[1..])
  }

  /** The tokens of one piece between quotes (`quoted`) or outside of them. */
  function PieceTokens(piece: string, quoted: bool): seq<string> {
    if quoted then Flush(piece) else NonEmpty(Split(piece, SPACE))
  }

  function PiecesTokens(pieces: seq<string>, quoted: bool): seq<string> {
    if pieces == [] then [] else PieceTokens(pieces[0], quoted) + PiecesTokens(pieces[1..], !quoted)
  }

  lemma {:induction false} FindAfterPrefix(cur: string, s: string, delim: char)
    requires delim !in cur
    ensures Find(cur + s, delim) == |cur| + Find(s, delim)
  {
    if cur == "" {
      assert cur + s == s;
    } else {
      assert (cur + s)[1..] == cur[1..] + s;
      FindAfterPrefix(cur[1..], s, delim);
    }
  }

  /** Outside the quotes, scanning a quote-free piece is the second split with its empty parts dropped. */
  lemma {:induction false} ScanPiece(piece: string, quoted: bool, cur: string)
    requires QUOTE !in piece
    requires !quoted ==> SPACE !in cur
    ensures Scan(piece, quoted, cur) == PieceTokens(cur + piece, quoted)
  {
    if piece == "" {
      assert cur + piece == cur;
      if !quoted && cur != "" {
        FindAfterPrefix(cur, "", SPACE);
        assert cur + "" == cur && cur[..|cur|] == cur;
        assert Split(cur, SPACE) == [cur];
        assert NonEmpty([cur]) == Flush(cur) + NonEmpty([]);
      }
    } else if piece[0] == SPACE && !quoted {
      ScanPiece(piece[1..], quoted, "");
      FindAfterPrefix(cur, piece, SPACE);
      assert (cur + piece)[..|cur|] == cur;
      assert (cur + piece)[|cur| + 1..] == piece[1..] == "" + piece[1..];
    } else {
      ScanPiece(piece[1..], quoted, cur + [piece[0]]);
      assert cur + [piece[0]] + piece[1..] == cur + piece;
    }
  }

  lemma {:induction false} ScanToQuote(piece: string, rest: string, quoted: bool, cur: string)
    requires QUOTE !in piece
    ensures Scan(piece + [QUOTE] + rest, quoted, cur) == Scan(piece, quoted, cur) + Scan(rest, !quoted, "")
  {
    var s := piece + [QUOTE] + rest;
    if piece == "" {
      assert s[1..] == rest;
    } else {
      assert s[0] == piece[0] && s[1..] == piece[1..] + [QUOTE] + rest;
      if piece[0] == SPACE && !quoted {
        ScanToQuote(piece[1..], rest, quoted, "");
      } else {
        ScanToQuote(piece[1..], rest, quoted, cur + [piece[0]]);
      }
    }
  }

  lemma SplitAtQuote(piece: string, rest: string)
    requires QUOTE !in piece
    ensures Split(piece + [QUOTE] + rest, QUOTE) == [piece] + Split(rest, QUOTE)
  {
    var s := piece + [QUOTE] + rest;
    assert s == piece + ([QUOTE] + rest);
    FindAfterPrefix(piece, [QUOTE] + rest, QUOTE);
    assert s[..|piece|] == piece && s[|piece| + 1..] == rest;
  }

  /** The two nested getline splits produce exactly the scanner's tokens, for unbalanced quotes too. */
  lemma {:induction false} TwoLevelSplitIsScan(s: string, quoted: bool)
    ensures PiecesTokens(Split(s, QUOTE), quoted) == Scan(s, quoted, "")
    decreases |s|
  {
    var n := Find(s, QUOTE);
    if s == "" {
    } else if n == |s| {
      LastPiece(s, quoted);
    } else {
      var rest := s[n + 1..];
      TwoLevelSplitIsScan(rest, !quoted);
      QuotedStep(s, n, rest, quoted);
    }
  }

  lemma QuotedStep(s: string, n: nat, rest: string, quoted: bool)
    requires n < |s| && QUOTE !in s[..n] && s[n] == QUOTE && rest == s[n + 1..]
    requires PiecesTokens(Split(rest, QUOTE), !quoted) == Scan(rest, !quoted, "")
    ensures PiecesTokens(Split(s, QUOTE), quoted) == Scan(s, quoted, "")
  {
    var piece := s[..n];
    assert s == piece + [QUOTE] + rest;
    SplitAtQuote(piece, rest);
    FirstPiece(piece, Split(rest, QUOTE), quoted);
    ScanToQuote(piece, rest, quoted, "");
    ScanPiece(piece, quoted, "");
    assert "" + piece == piece;
  }

  lemma LastPiece(s: string, quoted: bool)
    requires s != "" && Find(s, QUOTE) == |s|
    ensures PiecesTokens(Split(s, QUOTE), quoted) == Scan(s, quoted, "")
  {
    assert s[..|s|] == s && "" + s == s;
    ScanPiece(s, quoted, "");
    assert Split(s, QUOTE) == [s];
    FirstPiece(s, [], quoted);
    assert [s] + [] == [s];
  }

  lemma FirstPiece(piece: string, pieces: seq<string>, quoted: bool)
    ensures PiecesTokens([piece] + pieces, quoted) == PieceTokens(piece, quoted) + PiecesTokens(pieces, !quoted)
  {
    assert ([piece] + pieces)[1..] == pieces;
  }

  // ---------------------------------------------------------------------------------------------------------------
  // The merging loop agrees with the right fold

  /** Gluing the first token to the second before folding, as the loop does, changes nothing. */
  lemma {:induction false} GlueFirst(prev: string, now: string, rest: seq<string>)
    requires EndsInBackslash(prev) && now != ""
    ensures Merge([prev, now] + rest) == Merge([prev[..|prev| - 1] + " " + now] + rest)
  {
    var cut := prev[..|prev| - 1];
    var glued := cut + " " + now;
    assert ([prev, now] + rest)[1..] == [now] + rest;
    assert ([now] + rest)[1..] == rest && ([glued] + rest)[1..] == rest;
    if rest != [] && EndsInBackslash(now) {
      assert glued[..|glued| - 1] == cut + " " + now[..|now| - 1];
      var tail := Merge(rest);
      assert cut + " " + (now[..|now| - 1] + " " + tail[0]) == glued[..|glued| - 1] + " " + tail[0];
    }
  }

  /** Every token is nonempty and free of quotes. */
  ghost predicate Clean(tokens: seq<string>) {
    forall i | 0 <= i < |tokens| :: tokens[i] != "" && QUOTE !in tokens[i]
  }

  lemma {:induction false} ScanTokens(s: string, quoted: bool, cur: string)
    requires QUOTE !in cur
    ensures Clean(Scan(s, quoted, cur))
  {
    if s != "" {
      if s[0] == QUOTE {
        ScanTokens(s[1..], !quoted, "");
      } else if s[0] == SPACE && !quoted {
        ScanTokens(s[1..], quoted, "");
      } else {
        ScanTokens(s[1..], quoted, cur + [s[0]]);
      }
    }
  }

  /** The inner loop: the nonempty words of a piece outside quotes are pushed to `ret`. */
  method PushWords(ret: seq<string>, piece: string) returns (out: seq<string>)
    ensures out == ret + PieceTokens(piece, false)
  {
    out := ret;
    var words := SplitLines(piece, SPACE);
    for j := 0 to |words|
      invariant out + NonEmpty(words[j..]) == ret + PieceTokens(piece, false)
    {
      assert words[j..][0] == words[j] && words[j..][1..] == words[j + 1..];
      if words[j] == "" {
        continue;
      }
      out := out + [words[j]];
    }
  }

  ghost predicate QuotedAfter(n: nat, quoted: bool) {
    if n % 2 == 0 then quoted else !quoted
  }

  lemma {:induction false} PiecesTokensSnoc(pieces: seq<string>, last: string, quoted: bool)
    ensures PiecesTokens(pieces + [last], quoted)
         == PiecesTokens(pieces, quoted) + PieceTokens(last, QuotedAfter(|pieces|, quoted))
  {
    if pieces == [] {
      FirstPiece(last, [], quoted);
      assert pieces + [last] == [last] + [];
    } else {
      PiecesTokensSnoc(pieces[1..], last, !quoted);
      SnocStep(pieces, last, quoted, PieceTokens(last, QuotedAfter(|pieces|, quoted)));
    }
  }

  lemma SnocStep(pieces: seq<string>, last: string, quoted: bool, lastTokens: seq<string>)
    requires pieces != []
    requires PiecesTokens(pieces[1..] + [last], !quoted) == PiecesTokens(pieces[1..], !quoted) + lastTokens
    ensures PiecesTokens(pieces + [last], quoted) == PiecesTokens(pieces, quoted) + lastTokens
  {
    assert (pieces + [last])[1..] == pieces[1..] + [last];
    Associative(PieceTokens(pieces[0], quoted), PiecesTokens(pieces[1..], !quoted), lastTokens);
  }

  /** The tokens before merging: pieces at even positions are outside quotes, the others inside. */
  method Tokenise(ss: string) returns (ret: seq<string>)
    ensures ret == Scan(ss, false, "")
  {
    ret := [];
    var subs := SplitLines(ss, QUOTE);
    for i := 0 to |subs|
      invariant ret == PiecesTokens(subs[..i], false)
    {
      assert subs[..i + 1] == subs[..i] + [subs[i]];
      PiecesTokensSnoc(subs[..i], subs[i], false);
      if i % 2 == 0 {
        ret := PushWords(ret, subs[i]);
      } else {
        if subs[i] == "" {
          continue;
        }
        ret := ret + [subs[i]];
      }
    }
    assert subs[..|subs|] == subs;
    TwoLevelSplitIsScan(ss, false);
  }

  lemma MergeHead(prev: string, now: string, rest: seq<string>)
    requires prev != "" && now != ""
    ensures Merge([prev] + ([now] + rest)) ==
            if EndsInBackslash(prev) then Merge([prev[..|prev| - 1] + " " + now] + rest) else [prev] + Merge([now] + rest)
  {
    var all := [prev] + ([now] + rest);
    assert all == [prev, now] + rest && all[1..] == [now] + rest;
    if EndsInBackslash(prev) {
      GlueFirst(prev, now, rest);
    }
  }

  /** The loop that glues tokens. The source also skips an empty `prev`, which cannot occur: tokens are never empty. */
  method Glue(ret: seq<string>) returns (out: seq<string>)
    requires ret != [] && Clean(ret)
    ensures out == Merge(ret)
  {
    out := [];
    var prev := ret[0];
    assert ret == [ret[0]] + ret[1..];
    for i := 1 to |ret|
      invariant prev != ""
      invariant out + Merge([prev] + ret[i..]) == Merge(ret)
    {
      var now := ret[i];
      assert ret[i..] == [now] + ret[i + 1..];
      MergeHead(prev, now, ret[i + 1..]);
      if prev[|prev| - 1] == BACKSLASH {
        prev := prev[..|prev| - 1] + " " + now;
      } else {
        Associative(out, [prev], Merge([now] + ret[i + 1..]));
        out := out + [prev];
        prev := now;
      }
    }
    assert [prev] + ret[|ret|..] == [prev];
    out := out + [prev];
  }

  /** `str2arg`. */
  method Str2Arg(ss: string) returns (out: seq<string>)
    ensures out == Parse(ss)
  {
    if ss == "" {
      return [];
    }
    var ret := Tokenise(ss);
    ScanTokens(ss, false, "");
    if ret == [] {
      return ret;
    }
    out := Glue(ret);
  }

  // ---------------------------------------------------------------------------------------------------------------
  // Nothing but quotes and unquoted spaces is lost by the tokeniser

  function Concat(tokens: seq<string>): string {
    if tokens == [] then "" else tokens[0] + Concat(tokens[1..])
  }

  /** `s` without its quotes and without the spaces outside of them. */
  function Strip(s: string, quoted: bool): string {
    if s == "" then ""
    else if s[0] == QUOTE then Strip(s[1..], !quoted)
    else if s[0] == SPACE && !quoted then Strip(s[1..], quoted)
    else [s[0]] + Strip(s[1..], quoted)
  }

  lemma {:induction false} ConcatFlush(cur: string, tokens: seq<string>)
    ensures Concat(Flush(cur) + tokens) == cur + Concat(tokens)
  {
    if cur == "" {
      assert Flush(cur) + tokens == tokens;
    } else {
      assert (Flush(cur) + tokens)[1..] == tokens;
    }
  }

  lemma {:induction false} TokensCoverInput(s: string, quoted: bool, cur: string)
    ensures Concat(Scan(s, quoted, cur)) == cur + Strip(s, quoted)
  {
    if s == "" {
      ConcatFlush(cur, []);
      assert Flush(cur) + [] == Flush(cur);
    } else if s[0] == QUOTE || (s[0] == SPACE && !quoted) {
      var q := if s[0] == QUOTE then !quoted else quoted;
      TokensCoverInput(s[1..], q, "");
      ConcatFlush(cur, Scan(s[1..], q, ""));
      assert "" + Strip(s[1..], q) == Strip(s[1..], q);
    } else {
      TokensCoverInput(s[1..], quoted, cur + [s[0]]);
      assert cur + [s[0]] + Strip(s[1..], quoted) == cur + ([s[0]] + Strip(s[1..], quoted));
    }
  }

  // ---------------------------------------------------------------------------------------------------------------
  // The printer and the round trip

  function Word(arg: string): string {
    if SPACE in arg then [QUOTE] + arg + [QUOTE] else arg
  }

  function Print(args: seq<string>): string {
    if args == [] then "" else if |args| == 1 then Word(args[0]) else Word(args[0]) + " " + Print(args[1..])
  }

  method ContainsSpace(p: string) returns (found: bool)
    ensures found == (SPACE in p)
  {
    for k := 0 to |p|
      invariant SPACE !in p[..k]
    {
      if p[k] == SPACE {
        return true;
      }
    }
    assert p[..|p|] == p;
    return false;
  }

  lemma {:induction false} PrintSnoc(args: seq<string>, last: string)
    ensures Print(args + [last]) == (if args == [] then "" else Print(args) + " ") + Word(last)
  {
    if args == [] {
      assert args + [last] == [last];
    } else {
      assert (args + [last])[0] == args[0] && (args + [last])[1..] == args[1..] + [last];
      PrintSnoc(args[1..], last);
    }
  }

  /** The arguments with a space between any two. */
  function Join(args: seq<string>): string {
    if args == [] then "" else if |args| == 1 then args[0] else args[0] + " " + Join(args[1..])
  }

  function Spaced(args: seq<string>): nat {
    if args == [] then 0 else (if SPACE in args[0] then 1 else 0) + Spaced(args[1..])
  }

  /** Quotes are printed around the arguments with a space, and nowhere else: a list is printed as it stands if and only if
      none of its arguments contains one. */
  lemma {:induction false} QuotesOnlyWhereNeeded(args: seq<string>)
    ensures |Print(args)| == |Join(args)| + 2 * Spaced(args)
    ensures Print(args) == Join(args) <==> forall i | 0 <= i < |args| :: SPACE !in args[i]
    ensures Spaced(args) == 0 <==> forall i | 0 <= i < |args| :: SPACE !in args[i]
  {
    if args != [] {
      QuotesOnlyWhereNeeded(args[1..]);
      assert forall i | 1 <= i < |args| :: args[i] == args[1..][i - 1];
    }
  }

  /** One argument, quoted if it contains a space. */
  method AppendWord(ss: string, p: string) returns (out: string)
    ensures out == ss + Word(p)
  {
    var containsSpace := ContainsSpace(p);
    out := ss;
    if containsSpace {
      out := out + [QUOTE];
    }
    out := out + p;
    if containsSpace {
      out := out + [QUOTE];
    }
  }

  /** `arg2str`. */
  method Arg2Str(args: seq<string>) returns (ss: string)
    ensures ss == Print(args)
  {
    ss := "";
    for i := 0 to |args|
      invariant ss == if 0 < i < |args| then Print(args[..i]) + " " else Print(args[..i])
    {
      PrintSnoc(args[..i], args[i]);
      assert args[..i + 1] == args[..i] + [args[i]];
      ss := AppendWord(ss, args[i]);
      if i + 1 != |args| {
        ss := ss + " ";
      }
    }
    assert args[..|args|] == args;
  }

  /** The argument lists the parser can return: no empty argument, no quote, and only the last may end in a backslash. */
  ghost predicate Canonical(args: seq<string>) {
    && Clean(args)
    && (forall i | 0 <= i < |args| - 1 :: !EndsInBackslash(args[i]))
  }

  lemma CanonicalCons(first: string, rest: seq<string>)
    requires Canonical(rest)
    requires first != "" && QUOTE !in first && (rest != [] ==> !EndsInBackslash(first))
    ensures Canonical([first] + rest)
  {
    var all := [first] + rest;
    assert forall i | 1 <= i < |all| :: all[i] == rest[i - 1];
  }

  /** Gluing a prefix to the first argument keeps a list canonical and its last character. */
  lemma CanonicalGlue(prefix: string, rest: seq<string>)
    requires rest != [] && Canonical(rest) && QUOTE !in prefix
    ensures Canonical([prefix + " " + rest[0]] + rest[1..])
    ensures EndsInBackslash(prefix + " " + rest[0]) == EndsInBackslash(rest[0])
  {
    var glued := prefix + " " + rest[0];
    var all := [glued] + rest[1..];
    assert glued[|glued| - 1] == rest[0][|rest[0]| - 1];
    assert forall i | 1 <= i < |all| :: all[i] == rest[i];
  }

  lemma {:induction false} MergeCanonical(tokens: seq<string>)
    requires Clean(tokens)
    ensures Canonical(Merge(tokens))
  {
    if |tokens| > 1 {
      MergeCanonical(tokens[1..]);
      var rest := Merge(tokens[1..]);
      if EndsInBackslash(tokens[0]) {
        CanonicalGlue(tokens[0][..|tokens[0]| - 1], rest);
      } else {
        CanonicalCons(tokens[0], rest);
      }
    }
  }

  /** Whatever the command line, the parser's arguments are canonical. */
  lemma ParseCanonical(s: string)
    ensures Canonical(Parse(s))
  {
    ScanTokens(s, false, "");
    MergeCanonical(Scan(s, false, ""));
  }

  lemma {:induction false} ScanBareWord(word: string, rest: string, quoted: bool, cur: string)
    requires QUOTE !in word
    requires quoted || SPACE !in word
    ensures Scan(word + rest, quoted, cur) == Scan(rest, quoted, cur + word)
  {
    if word == "" {
      assert word + rest == rest && cur + word == cur;
    } else {
      assert (word + rest)[0] == word[0] && (word + rest)[1..] == word[1..] + rest;
      ScanBareWord(word[1..], rest, quoted, cur + [word[0]]);
      assert cur + [word[0]] + word[1..] == cur + word;
    }
  }

  lemma ScanQuotedWord(arg: string, rest: string)
    requires arg != "" && QUOTE !in arg
    ensures Scan([QUOTE] + arg + [QUOTE] + rest, false, "") == [arg] + Scan(rest, false, "")
  {
    var tail := [QUOTE] + rest;
    var s := [QUOTE] + arg + [QUOTE] + rest;
    assert s[0] == QUOTE && s[1..] == arg + tail;
    assert Scan(s, false, "") == Flush("") + Scan(arg + tail, true, "") == Scan(arg + tail, true, "");
    ScanBareWord(arg, tail, true, "");
    assert "" + arg == arg && tail[1..] == rest;
  }

  /** A printed word followed by the end of the text or by a separating space is read back as one token. */
  lemma ScanWord(arg: string, rest: string)
    requires arg != "" && QUOTE !in arg
    requires rest == "" || rest[0] == SPACE
    ensures Scan(Word(arg) + rest, false, "") == [arg] + Scan(rest, false, "")
  {
    if SPACE in arg {
      ScanQuotedWord(arg, rest);
    } else {
      ScanBareWord(arg, rest, false, "");
      assert "" + arg == arg;
      if rest != "" {
        assert Scan(rest, false, arg) == [arg] + Scan(rest[1..], false, "");
        assert Scan(rest, false, "") == Flush("") + Scan(rest[1..], false, "") == Scan(rest[1..], false, "");
      }
    }
  }

  lemma ScanSeparator(text: string)
    ensures Scan(" " + text, false, "") == Scan(text, false, "")
  {
    assert (" " + text)[1..] == text;
    assert Flush("") + Scan(text, false, "") == Scan(text, false, "");
  }

  lemma ScanNext(arg: string, text: string)
    requires arg != "" && QUOTE !in arg
    ensures Scan(Word(arg) + (" " + text), false, "") == [arg] + Scan(text, false, "")
  {
    ScanSeparator(text);
    ScanWord(arg, " " + text);
  }

  lemma PrintCons(args: seq<string>)
    requires |args| > 1
    ensures Print(args) == Word(args[0]) + (" " + Print(args[1..]))
  {
    Associative(Word(args[0]), " ", Print(args[1..]));
  }

  lemma {:induction false} ScanPrint(args: seq<string>)
    requires Clean(args)
    ensures Scan(Print(args), false, "") == args
  {
    if |args| == 1 {
      ScanWord(args[0], "");
      assert Word(args[0]) + "" == Word(args[0]);
    } else if |args| > 1 {
      PrintCons(args);
      ScanNext(args[0], Print(args[1..]));
      ScanPrint(args[1..]);
      assert args == [args[0]] + args[1..];
    }
  }

  lemma {:induction false} MergeIdentity(tokens: seq<string>)
    requires forall i | 0 <= i < |tokens| - 1 :: !EndsInBackslash(tokens[i])
    ensures Merge(tokens) == tokens
  {
    if |tokens| > 1 {
      MergeIdentity(tokens[1..]);
    }
  }

  /** Printing and parsing give a list back exactly when it is canonical. */
  lemma RoundTrip(args: seq<string>)
    ensures Parse(Print(args)) == args <==> Canonical(args)
  {
    if Canonical(args) {
      ScanPrint(args);
      MergeIdentity(args);
    } else {
      ParseCanonical(Print(args));
    }
  }

  /** One round of parsing normalises: printing the result and parsing again changes nothing, for every string. */
  lemma Normalisation(s: string)
    ensures Parse(Print(Parse(s))) == Parse(s)
  {
    ParseCanonical(s);
    RoundTrip(Parse(s));
  }
}
