/** The interactive part of the scripts: the three retry loops of
    get_user_input and the two versions of get_form_urls. Standard input is a
    sequence of lines; each reader says how many lines it consumed. When the
    lines run out, input() raises EOFError, which no script catches: the
    reader then returns None, having consumed every line. */
module Prompts {
  import opened Wrappers
  import opened Decimal
  import opened Text
  import opened Catalog

  // ------------------------------------------------------------ validators

  /** One answer to "Select category number (1-5)": `int(answer)`, accepted
      when 1 <= choice <= 5, giving `categories[choice-1]`. */
  function CategoryChoice(line: string): Option<Category>
  {
    match ParseInt(line)
    case Some(n) => if 1 <= n <= |Categories| then Some(Categories[n - 1]) else None
    case None => None
  }

  /** One answer to "Enter start number (default: 1)": `int(answer or "1")`,
      accepted when it is at least 1. */
  function StartChoice(line: string): (r: Option<int>)
    ensures r.Some? ==> r.value >= 1
  {
    match ParseInt(if line == "" then "1" else line)
    case Some(n) => if n >= 1 then Some(n) else None
    case None => None
  }

  /** One answer to "Enter end number (default: start)":
      `int(answer or str(start))`, accepted when it is at least start. */
  function EndChoice(line: string, start: int): (r: Option<int>)
    ensures r.Some? ==> r.value >= start
  {
    match ParseInt(if line == "" then Show(start) else line)
    case Some(n) => if n >= start then Some(n) else None
    case None => None
  }

  /** The end validator for a given start, as a value the retry loop can take. */
  function EndChoiceFor(start: int): string -> Option<int>
  {
    line => EndChoice(line, start)
  }

  // ------------------------------------------------------ the retry loops

  /** Reading from line `from`, the retry loop stops after line `next`: that
      last line was accepted as `v` and every line read before it was
      rejected. */
  predicate AcceptedAt<T(==)>(lines: seq<string>, from: nat, accept: string -> Option<T>, v: T, next: nat)
  {
    && from < next <= |lines|
    && accept(lines[next - 1]) == Some(v)
    && forall k :: from <= k < next - 1 ==> accept(lines[k]).None?
  }

  /** `accept` takes none of the lines from `from` on: the loop runs out of
      input. */
  predicate Rejects<T(==)>(lines: seq<string>, from: nat, accept: string -> Option<T>)
  {
    forall k :: from <= k < |lines| ==> accept(lines[k]).None?
  }

  /** `while True: try: … input() … break` — reads lines from position
      `from` of standard input until `accept` takes one; `next` is the
      position after the last line read. */
  method Prompt<T(==)>(lines: seq<string>, from: nat, accept: string -> Option<T>) returns (r: Option<T>, next: nat)
    requires from <= |lines|
    ensures from <= next <= |lines|
    ensures r.Some? ==> AcceptedAt(lines, from, accept, r.value, next)
    ensures r.None? ==> next == |lines| && Rejects(lines, from, accept)
  {
    next := from;
    while next < |lines|
      invariant from <= next <= |lines|
      invariant forall k :: from <= k < next ==> accept(lines[k]).None?
    {
      var answer := accept(lines[next]);
      next := next + 1;
      if answer.Some? {
        return answer, next;
      }
    }
    r := None;
  }

  datatype Settings = Settings(category: Category, start: int, end: int)

  /** Three retry loops in turn answered: `fa` takes the u1-th line as `a`,
      `fb` takes the line u2 of the rest as `b`, and `fc(b)`, the third
      validator as chosen by `b`, takes the last of the `used` lines. */
  ghost predicate Staged<A, B, C>(lines: seq<string>, fa: string -> Option<A>, fb: string -> Option<B>,
                                  fc: B -> string -> Option<C>, a: A, b: B, c: C, used: nat)
  {
    exists u1: nat, u2: nat ::
      && AcceptedAt(lines, 0, fa, a, u1)
      && AcceptedAt(lines, u1, fb, b, u2)
      && AcceptedAt(lines, u2, fc(b), c, used)
  }

  /** Input ends inside one of three retry loops in turn: the first rejects
      every line, or it answers and the second rejects every later line, or
      both answer and the third rejects every later line. */
  ghost predicate StagesRunOut<A(!new), B(!new), C>(lines: seq<string>, fa: string -> Option<A>, fb: string -> Option<B>,
                                                    fc: B -> string -> Option<C>)
  {
    || Rejects(lines, 0, fa)
    || (exists a, u1: nat :: AcceptedAt(lines, 0, fa, a, u1) && Rejects(lines, u1, fb))
    || (exists a, b, u1: nat, u2: nat ::
          && AcceptedAt(lines, 0, fa, a, u1)
          && AcceptedAt(lines, u1, fb, b, u2)
          && Rejects(lines, u2, fc(b)))
  }

  /** get_user_input's three prompts answered in turn: the category, the
      start, then the end checked against that start, on the last of the
      `used` lines. */
  ghost predicate Answered(lines: seq<string>, s: Settings, used: nat)
  {
    Staged(lines, CategoryChoice, StartChoice, EndChoiceFor, s.category, s.start, s.end, used)
  }

  /** Input ends inside the category, the start or the end loop. */
  ghost predicate RunsOut(lines: seq<string>)
  {
    StagesRunOut(lines, CategoryChoice, StartChoice, EndChoiceFor)
  }

  /** get_user_input: the category loop, then the start loop, then the end
      loop, each reading the lines the previous one left. It answers exactly
      when input does not run out. */
  method GetUserInput(lines: seq<string>) returns (r: Option<Settings>, used: nat)
    ensures used <= |lines|
    ensures r.Some? ==> 1 <= r.value.start <= r.value.end && Answered(lines, r.value, used)
    ensures r.None? ==> used == |lines| && RunsOut(lines)
    ensures r.None? <==> RunsOut(lines)
  {
    var category, u1 := Prompt(lines, 0, CategoryChoice);
    if category.None? { return None, u1; }
    var start, u2 := Prompt(lines, u1, StartChoice);
    if start.None? { return None, u2; }
    var end;
    end, used := Prompt(lines, u2, EndChoiceFor(start.value));
    if end.None? { return None, used; }
    assert EndChoice(lines[used - 1], start.value) == end;
    r := Some(Settings(category.value, start.value, end.value));
    assert AcceptedAt(lines, 0, CategoryChoice, r.value.category, u1);
    AnsweredExcludesRunsOut(lines, r.value, used);
  }

  // ---------------------------------------------- destination-URL readers

  /** Each line stripped, in order. */
  function StripAll(lines: seq<string>): (r: seq<string>)
    ensures |r| == |lines| && forall k :: 0 <= k < |lines| ==> r[k] == Strip(lines[k])
  {
    seq(|lines|, k requires 0 <= k < |lines| => Strip(lines[k]))
  }

  /** `{start + i: url for i, url in enumerate(urls)}`: the URLs numbered
      from `start`. The keys are exactly start .. start + |urls| - 1. */
  function Numbered(start: int, urls: seq<string>): (m: map<int, string>)
    ensures forall i :: i in m ==> start <= i < start + |urls|
    ensures forall k :: 0 <= k < |urls| ==> start + k in m && m[start + k] == urls[k]
  {
    map i | start <= i < start + |urls| :: UrlFor(start, urls, i)
  }

  /** The URL enumerate() pairs with index `i`. */
  function UrlFor(start: int, urls: seq<string>, i: int): string
    requires start <= i < start + |urls|
  {
    urls[i - start]
  }

  /** No line is blank after stripping: the bulk reader never stops. */
  predicate NoBlank(lines: seq<string>)
  {
    forall k :: 0 <= k < |lines| ==> Strip(lines[k]) != ""
  }

  /** The `used`-th line is the first blank one: where the bulk reader stops. */
  predicate EndsAtBlank(lines: seq<string>, used: nat)
  {
    && 0 < used <= |lines|
    && Strip(lines[used - 1]) == ""
    && forall k :: 0 <= k < used - 1 ==> Strip(lines[k]) != ""
  }

  /** The outcome of 20250108's get_form_urls on `lines`: with no blank line
      it reads them all and has no result; otherwise it stops at the first
      blank one, numbers the stripped URLs before it from `start`, and warns
      exactly when they are fewer than the indices start .. end. */
  predicate BulkRead(lines: seq<string>, start: int, end: int,
                     r: Option<map<int, string>>, warned: bool, used: nat)
  {
    && used <= |lines|
    && (r.None? ==> used == |lines| && NoBlank(lines) && !warned)
    && (r.Some? ==>
          && EndsAtBlank(lines, used)
          && r.value == Numbered(start, StripAll(lines[..used - 1]))
          && (warned <==> used - 1 < end - start + 1))
  }

  /** get_form_urls of 20250108: lines are stripped and collected up to the
      first blank one; the warning is printed when fewer URLs than indices
      were given. The comprehension's `if url` never drops anything, since
      collection stops at the first empty line. */
  method CollectBulk(lines: seq<string>, start: int, end: int)
    returns (r: Option<map<int, string>>, warned: bool, used: nat)
    ensures BulkRead(lines, start, end, r, warned, used)
  {
    var urls: seq<string> := [];
    used := 0;
    while true
      invariant used <= |lines| && |urls| == used
      invariant forall k :: 0 <= k < used ==> urls[k] == Strip(lines[k]) && urls[k] != ""
      decreases |lines| - used
    {
      if used == |lines| {
        return None, false, used;
      }
      var url := Strip(lines[used]);
      used := used + 1;
      if url == "" {
        break;
      }
      urls := urls + [url];
    }
    assert urls == StripAll(lines[..used - 1]);
    warned := |urls| < end - start + 1;
    r := Some(Numbered(start, urls));
  }

  /** What the per-index reader has stored after reading `lines` for the
      indices start, start + 1, …: each non-blank stripped line under its
      index. */
  function Kept(start: int, lines: seq<string>): map<int, string>
    decreases |lines|
  {
    if lines == [] then map[]
    else
      var m := Kept(start, lines[..|lines| - 1]);
      var url := Strip(lines[|lines| - 1]);
      if url != "" then m[start + |lines| - 1 := url] else m
  }

  /** get_form_urls of 20241113: one line per index from start to end, in
      ascending order; the stripped line is stored for that index only when
      it is not empty. */
  method CollectPerIndex(lines: seq<string>, start: int, end: int)
    returns (r: Option<map<int, string>>, used: nat)
    ensures used <= |lines|
    ensures r.None? ==> used == |lines| < end - start + 1
    ensures r.Some? ==> used == (if start <= end then end - start + 1 else 0)
    ensures r.Some? ==> r.value == Kept(start, lines[..used])
  {
    var count := if start <= end then end - start + 1 else 0;
    var urls: map<int, string> := map[];
    used := 0;
    while used < count
      invariant used <= count && used <= |lines|
      invariant urls == Kept(start, lines[..used])
    {
      if used == |lines| {
        return None, used;
      }
      var url := Strip(lines[used]);
      KeptStep(start, lines, used);
      if url != "" {
        urls := urls[start + used := url];
      }
      used := used + 1;
    }
    r := Some(urls);
  }

  /** Reading one more line extends the per-index map by that line's entry. */
  lemma KeptStep(start: int, lines: seq<string>, n: nat)
    requires n < |lines|
    ensures Kept(start, lines[..n + 1])
            == if Strip(lines[n]) != "" then Kept(start, lines[..n])[start + n := Strip(lines[n])]
               else Kept(start, lines[..n])
  {
    assert lines[..n + 1][..n] == lines[..n];
  }

  // ---------------------------------------------------------------- lemmas

  /** Typing a category's menu number selects that category, and an
      accepted answer always reads as the menu number of what it selected. */
  lemma CategoryChoiceMenu(c: Category)
    ensures CategoryChoice(Show(MenuNumber(c))) == Some(c)
  {
    ParseShow(MenuNumber(c));
  }

  lemma CategoryChoiceReadsMenuNumber(line: string)
    requires CategoryChoice(line).Some?
    ensures ParseInt(line) == Some(MenuNumber(CategoryChoice(line).value))
  {
    MenuNumbering(ParseInt(line).value);
  }

  /** A numeral outside 1..5 is rejected, so the loop asks again. */
  lemma CategoryChoiceOfNumber(n: int)
    ensures CategoryChoice(Show(n)) == if 1 <= n <= 5 then Some(Categories[n - 1]) else None
  {
    ParseShow(n);
  }

  /** An empty start answer means 1; a numeral is accepted exactly when it
      is at least 1. */
  lemma StartChoiceDefaults()
    ensures StartChoice("") == Some(1)
    ensures StartChoice("abc") == None && StartChoice("0") == None && StartChoice("-1") == None
  {
    assert Value("1"[..0]) == 0;
    assert "-1"[1..] == "1";
    assert Value("1") == 1 by { assert "1"[..0] == []; }
    assert Value("0") == 0 by { assert "0"[..0] == []; }
  }

  lemma StartChoiceOfNumber(n: int)
    ensures StartChoice(Show(n)) == if n >= 1 then Some(n) else None
  {
    ParseShow(n);
    assert Show(n) != "" by { if n < 0 { assert Show(n)[0] == '-'; } }
  }

  /** An empty end answer means "same as start": `int(str(start)) == start`. */
  lemma EndChoiceDefault(start: int)
    ensures EndChoice("", start) == Some(start)
  {
    ParseShow(start);
  }

  lemma EndChoiceOfNumber(n: int, start: int)
    ensures EndChoice(Show(n), start) == if n >= start then Some(n) else None
  {
    ParseShow(n);
    assert Show(n) != "" by { if n < 0 { assert Show(n)[0] == '-'; } }
  }

  /** Bulk mapping at its edges: an index of the range gets a URL exactly
      when enough URLs were given to reach it, so with too few URLs only a
      leading run of the range is covered. */
  lemma {:induction false} NumberedCoversPrefix(start: int, end: int, urls: seq<string>, i: int)
    requires start <= i <= end
    ensures i in Numbered(start, urls) <==> i - start < |urls|
    ensures |urls| < end - start + 1 ==> start + |urls| <= end && start + |urls| !in Numbered(start, urls)
  {
    if i - start < |urls| {
      var k := i - start;
      assert start + k in Numbered(start, urls);
    }
  }

  /** Surplus URLs become entries past the end of the range. */
  lemma NumberedSurplus(start: int, end: int, urls: seq<string>)
    requires start <= end
    ensures (exists i :: i in Numbered(start, urls) && i > end) <==> |urls| > end - start + 1
  {
    if |urls| > end - start + 1 {
      var k := end + 1 - start;
      assert start + k in Numbered(start, urls);
    }
  }

  /** The per-index map, index by index: an index has an entry exactly when
      its own line is not blank after stripping, and the entry is that
      stripped line; nothing outside the indices read is ever stored. */
  lemma {:induction false} KeptAt(start: int, lines: seq<string>, i: int)
    ensures i in Kept(start, lines) <==> start <= i < start + |lines| && Strip(lines[i - start]) != ""
    ensures i in Kept(start, lines) ==> Kept(start, lines)[i] == Strip(lines[i - start])
    decreases |lines|
  {
    if lines != [] {
      var init := lines[..|lines| - 1];
      KeptAt(start, init, i);
      if start <= i < start + |init| {
        assert lines[i - start] == init[i - start];
      }
    }
  }

  /** The retry loop's stopping point is determined by the input: at most one
      line is the first accepted one, and then not every line is rejected. */
  lemma AcceptedAtUnique<T>(lines: seq<string>, from: nat, accept: string -> Option<T>,
                            v: T, next: nat, v': T, next': nat)
    requires AcceptedAt(lines, from, accept, v, next) && AcceptedAt(lines, from, accept, v', next')
    ensures next == next' && v == v'
    ensures !Rejects(lines, from, accept)
  {
    assert accept(lines[next - 1]).Some?;
  }

  /** Three retry loops in turn stop at a point and with answers the input
      determines. */
  lemma StagedUnique<A, B, C>(lines: seq<string>, fa: string -> Option<A>, fb: string -> Option<B>,
                              fc: B -> string -> Option<C>, a: A, b: B, c: C, used: nat,
                              a': A, b': B, c': C, used': nat)
    requires Staged(lines, fa, fb, fc, a, b, c, used) && Staged(lines, fa, fb, fc, a', b', c', used')
    ensures a == a' && b == b' && c == c' && used == used'
  {
    var u1: nat, u2: nat :| && AcceptedAt(lines, 0, fa, a, u1)
                            && AcceptedAt(lines, u1, fb, b, u2)
                            && AcceptedAt(lines, u2, fc(b), c, used);
    var w1: nat, w2: nat :| && AcceptedAt(lines, 0, fa, a', w1)
                            && AcceptedAt(lines, w1, fb, b', w2)
                            && AcceptedAt(lines, w2, fc(b'), c', used');
    AcceptedAtUnique(lines, 0, fa, a, u1, a', w1);
    AcceptedAtUnique(lines, u1, fb, b, u2, b', w2);
    AcceptedAtUnique(lines, u2, fc(b), c, used, c', used');
  }

  /** Three retry loops in turn either answer or run out, not both. */
  lemma StagedExcludesRunOut<A(!new), B(!new), C>(lines: seq<string>, fa: string -> Option<A>, fb: string -> Option<B>,
                                                  fc: B -> string -> Option<C>, a: A, b: B, c: C, used: nat)
    requires Staged(lines, fa, fb, fc, a, b, c, used)
    ensures !StagesRunOut(lines, fa, fb, fc)
  {
    var u1: nat, u2: nat :| && AcceptedAt(lines, 0, fa, a, u1)
                            && AcceptedAt(lines, u1, fb, b, u2)
                            && AcceptedAt(lines, u2, fc(b), c, used);
    AcceptedAtUnique(lines, 0, fa, a, u1, a, u1);
    if a', w1: nat :| AcceptedAt(lines, 0, fa, a', w1) && Rejects(lines, w1, fb) {
      AcceptedAtUnique(lines, 0, fa, a, u1, a', w1);
      AcceptedAtUnique(lines, u1, fb, b, u2, b, u2);
    }
    if a', b', w1: nat, w2: nat :|
         && AcceptedAt(lines, 0, fa, a', w1)
         && AcceptedAt(lines, w1, fb, b', w2)
         && Rejects(lines, w2, fc(b')) {
      AcceptedAtUnique(lines, 0, fa, a, u1, a', w1);
      AcceptedAtUnique(lines, u1, fb, b, u2, b', w2);
      AcceptedAtUnique(lines, u2, fc(b), c, used, c, used);
    }
  }

  /** get_user_input's answer and the number of lines it reads are
      determined by the input. */
  lemma AnsweredUnique(lines: seq<string>, s: Settings, used: nat, s': Settings, used': nat)
    requires Answered(lines, s, used) && Answered(lines, s', used')
    ensures s == s' && used == used'
  {
    StagedUnique(lines, CategoryChoice, StartChoice, EndChoiceFor, s.category, s.start, s.end, used,
                 s'.category, s'.start, s'.end, used');
  }

  /** get_user_input answers exactly when input does not run out. */
  lemma AnsweredExcludesRunsOut(lines: seq<string>, s: Settings, used: nat)
    requires Answered(lines, s, used)
    ensures !RunsOut(lines)
  {
    StagedExcludesRunOut(lines, CategoryChoice, StartChoice, EndChoiceFor, s.category, s.start, s.end, used);
  }

  /** Where the bulk reader stops is determined by the input, and it stops
      exactly when some line is blank. */
  lemma EndsAtBlankUnique(lines: seq<string>, used: nat, used': nat)
    requires EndsAtBlank(lines, used) && EndsAtBlank(lines, used')
    ensures used == used' && !NoBlank(lines)
  {
    assert Strip(lines[used - 1]) == "";
  }

  /** A retry loop that does not run out stops somewhere: some line from
      `from` on is the first one accepted. */
  lemma {:induction false} FirstAccepted<T(!new)>(lines: seq<string>, from: nat, accept: string -> Option<T>)
    requires !Rejects(lines, from, accept)
    ensures exists v, next: nat :: AcceptedAt(lines, from, accept, v, next)
    decreases |lines| - from
  {
    var k :| from <= k < |lines| && accept(lines[k]).Some?;
    if accept(lines[from]).Some? {
      assert AcceptedAt(lines, from, accept, accept(lines[from]).value, from + 1);
    } else {
      assert from + 1 <= k;
      FirstAccepted(lines, from + 1, accept);
      var v, next: nat :| AcceptedAt(lines, from + 1, accept, v, next);
      assert AcceptedAt(lines, from, accept, v, next);
    }
  }

  /** Three retry loops in turn that do not run out all answer. */
  lemma StagedUnlessRunOut<A(!new), B(!new), C(!new)>(lines: seq<string>, fa: string -> Option<A>, fb: string -> Option<B>,
                                                      fc: B -> string -> Option<C>)
    requires !StagesRunOut(lines, fa, fb, fc)
    ensures exists a, b, c, used: nat :: Staged(lines, fa, fb, fc, a, b, c, used)
  {
    FirstAccepted(lines, 0, fa);
    var a, u1: nat :| AcceptedAt(lines, 0, fa, a, u1);
    FirstAccepted(lines, u1, fb);
    var b, u2: nat :| AcceptedAt(lines, u1, fb, b, u2);
    FirstAccepted(lines, u2, fc(b));
    var c, used: nat :| AcceptedAt(lines, u2, fc(b), c, used);
    assert Staged(lines, fa, fb, fc, a, b, c, used);
  }

  /** get_user_input answers whenever input does not run out in one of its
      loops. */
  lemma AnsweredUnlessRunsOut(lines: seq<string>)
    requires !RunsOut(lines)
    ensures exists s, used: nat :: Answered(lines, s, used)
  {
    StagedUnlessRunOut(lines, CategoryChoice, StartChoice, EndChoiceFor);
    var a, b, c, used: nat :| Staged(lines, CategoryChoice, StartChoice, EndChoiceFor, a, b, c, used);
    assert Answered(lines, Settings(a, b, c), used);
  }

  /** With a blank line somewhere, the bulk reader has a stopping point. */
  lemma FirstBlank(lines: seq<string>)
    requires !NoBlank(lines)
    ensures exists used: nat :: EndsAtBlank(lines, used)
  {
    FirstBlankFrom(lines, 0);
  }

  lemma {:induction false} FirstBlankFrom(lines: seq<string>, from: nat)
    requires !NoBlank(lines) && from <= |lines|
    requires forall k :: 0 <= k < from ==> Strip(lines[k]) != ""
    ensures exists used: nat :: EndsAtBlank(lines, used)
    decreases |lines| - from
  {
    var k :| 0 <= k < |lines| && Strip(lines[k]) == "";
    if Strip(lines[from]) == "" {
      assert EndsAtBlank(lines, from + 1);
    } else {
      FirstBlankFrom(lines, from + 1);
    }
  }

  /** Where 20250108's bulk reader stops, what it returns and whether it
      warns are determined by the lines it is given. */
  lemma BulkReadUnique(lines: seq<string>, start: int, end: int,
                       r: Option<map<int, string>>, warned: bool, used: nat,
                       r': Option<map<int, string>>, warned': bool, used': nat)
    requires BulkRead(lines, start, end, r, warned, used) && BulkRead(lines, start, end, r', warned', used')
    ensures r == r' && warned == warned' && used == used'
  {
    if r.Some? && r'.Some? {
      EndsAtBlankUnique(lines, used, used');
    } else if r.Some? {
      EndsAtBlankUnique(lines, used, used);
    } else if r'.Some? {
      EndsAtBlankUnique(lines, used', used');
    }
  }
}
