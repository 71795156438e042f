/** The statement scan shared by every `readInput`: the input is split on
    `;`, each statement is cut into tokens, and a `repeat N` statement replays
    the statements up to the next `end` N times. What the scan produces is
    the list of token lists it hands to `runCmd`, in order; it does not
    depend on the turtle, so it is defined once here and each page runs the
    list with its own `runCmd`. */
module Script {
  import opened Text

  /** `cmd[i]`, or `undefined` past the end. */
  function Arg(cmd: seq<string>, i: nat): Option<string> {
    if i < |cmd| then Some(cmd[i]) else None
  }

  /** `parseInt(cmd[i])`; `None` stands for `NaN`. */
  function IntArg(cmd: seq<string>, i: nat): Option<int> {
    match Arg(cmd, i)
    case None => None
    case Some(s) => ParseInt(s)
  }

  /** The numeric coercion of `cmd[i]` (`undefined` becomes `NaN`). */
  function NumArg(cmd: seq<string>, i: nat): Num {
    match Arg(cmd, i)
    case None => NaN
    case Some(s) => ToNumber(s)
  }

  /** A statement as the scan sees it: whether its trimmed raw text is
      `end` (a case-sensitive test) and the tokens it is dispatched as. */
  datatype Stmt = Stmt(isEnd: bool, tokens: seq<string>)

  /** One piece of the input: there is always at least one token, no
      token holds a space, and joining the tokens with single spaces gives
      back the lower-cased, trimmed text (see `EndTokens` for the tokens
      of an `end`). */
  function ParseStmt(raw: string): (st: Stmt)
    ensures st.isEnd <==> Trim(raw) == "end"
    ensures st.tokens == Tokens(raw)
    ensures |st.tokens| >= 1 && forall i :: 0 <= i < |st.tokens| ==> ' ' !in st.tokens[i]
    ensures Join(st.tokens, ' ') == Trim(Lower(raw))
  {
    JoinSplit(Trim(Lower(raw)), ' ');
    Stmt(Trim(raw) == "end", Tokens(raw))
  }

  /** `input.split(";")`, each piece read as a statement: one statement
      more than there are semicolons, and the whole input as the only
      statement when it has none. */
  function Statements(input: string): (stmts: seq<Stmt>)
    ensures |stmts| == |Split(input, ';')| == 1 + Occurrences(input, ';')
    ensures forall i :: 0 <= i < |stmts| ==> stmts[i] == ParseStmt(Split(input, ';')[i])
    ensures ';' !in input ==> stmts == [ParseStmt(input)]
  {
    SplitCount(input, ';');
    SplitOne(input, ';');
    var parts := Split(input, ';');
    seq(|parts|, i requires 0 <= i < |parts| => ParseStmt(parts[i]))
  }

  predicate IsRepeat(st: Stmt) {
    st.tokens != [] && st.tokens[0] == "repeat"
  }

  /** Some statement at `from` or later ends a block. */
  predicate HasEnd(stmts: seq<Stmt>, from: nat) {
    exists k :: from <= k < |stmts| && stmts[k].isEnd
  }

  /** The first statement at `from` or later that ends a block. */
  function FindEnd(stmts: seq<Stmt>, from: nat): (k: nat)
    requires HasEnd(stmts, from)
    ensures from <= k < |stmts| && stmts[k].isEnd
    decreases |stmts| - from
  {
    if stmts[from].isEnd then from else FindEnd(stmts, from + 1)
  }

  /** No statement between `from` and the one `FindEnd` picks ends a block. */
  lemma {:induction false} FindEndFirst(stmts: seq<Stmt>, from: nat, j: nat)
    requires HasEnd(stmts, from)
    requires from <= j < FindEnd(stmts, from)
    ensures !stmts[j].isEnd
    decreases |stmts| - from
  {
    if j > from {
      FindEndFirst(stmts, from + 1, j);
    }
  }

  /** Where the scan resumes after a block: at the `end` statement itself,
      which is then dispatched as a command (`i = k - 1` in the 3D pages), or
      after it (`i = k` in the 2D pages). */
  datatype Resume = AtEnd | AfterEnd

  function Next(resume: Resume, k: nat): nat {
    if resume == AtEnd then k else k + 1
  }

  /** The count of a `repeat` statement, when it is at least 1. */
  predicate GoodCount(st: Stmt) {
    IntArg(st.tokens, 1).Some? && IntArg(st.tokens, 1).value >= 1
  }

  /** Every `repeat` the scan reaches from `i` has a count of at least 1 and
      an `end` after it. */
  predicate WellFormed(stmts: seq<Stmt>, i: nat, resume: Resume)
    decreases |stmts| - i
  {
    i >= |stmts| ||
    (if IsRepeat(stmts[i]) then
       GoodCount(stmts[i]) && HasEnd(stmts, i + 1)
       && WellFormed(stmts, Next(resume, FindEnd(stmts, i + 1)), resume)
     else WellFormed(stmts, i + 1, resume))
  }

  function RepeatCount(st: Stmt): (n: nat)
    requires GoodCount(st)
    ensures n >= 1
  {
    IntArg(st.tokens, 1).value
  }

  /** The token lists of statements `from` up to (not including) `to`. */
  function Body(stmts: seq<Stmt>, from: nat, to: nat): (b: seq<seq<string>>)
    requires from <= to <= |stmts|
    ensures |b| == to - from
  {
    seq(to - from, j requires 0 <= j < to - from => stmts[from + j].tokens)
  }

  lemma BodyAt(stmts: seq<Stmt>, from: nat, to: nat, j: nat)
    requires from <= j < to <= |stmts|
    ensures Body(stmts, from, to)[j - from] == stmts[j].tokens
  {
  }

  /** A non-empty body is its first statement's tokens followed by the
      rest, whatever comes after it. */
  lemma BodyCons(stmts: seq<Stmt>, from: nat, to: nat, tail: seq<seq<string>>)
    requires from < to <= |stmts|
    ensures Body(stmts, from, to) + tail == [stmts[from].tokens] + (Body(stmts, from + 1, to) + tail)
  {
    assert Body(stmts, from, to) == [stmts[from].tokens] + Body(stmts, from + 1, to) by {
      assert Body(stmts, from, to)[1..] == Body(stmts, from + 1, to);
    }
  }

  /** `block` repeated `n` times. */
  function Repeat<T>(block: seq<T>, n: nat): seq<T>
  {
    if n == 0 then [] else block + Repeat(block, n - 1)
  }

  /** The commands the scan dispatches, from statement `i` on. */
  function Dispatched(stmts: seq<Stmt>, i: nat, resume: Resume): seq<seq<string>>
    requires WellFormed(stmts, i, resume)
    decreases |stmts| - i
  {
    if i >= |stmts| then []
    else if IsRepeat(stmts[i]) then
      var k := FindEnd(stmts, i + 1);
      Repeat(Body(stmts, i + 1, k), RepeatCount(stmts[i])) + Dispatched(stmts, Next(resume, k), resume)
    else [stmts[i].tokens] + Dispatched(stmts, i + 1, resume)
  }

  /** What a well-formed `repeat` at `i` dispatches, and where the scan
      goes on. */
  lemma DispatchedRepeat(stmts: seq<Stmt>, i: nat, resume: Resume)
    requires i < |stmts| && IsRepeat(stmts[i]) && WellFormed(stmts, i, resume)
    ensures GoodCount(stmts[i]) && HasEnd(stmts, i + 1)
    ensures WellFormed(stmts, Next(resume, FindEnd(stmts, i + 1)), resume)
    ensures Dispatched(stmts, i, resume) ==
      Repeat(Body(stmts, i + 1, FindEnd(stmts, i + 1)), RepeatCount(stmts[i])) +
      Dispatched(stmts, Next(resume, FindEnd(stmts, i + 1)), resume)
  {
  }

  /** A statement list without `repeat` is dispatched one statement at a
      time, in order. */
  lemma {:induction false} DispatchedPlain(stmts: seq<Stmt>, i: nat, resume: Resume)
    requires i <= |stmts|
    requires forall j :: i <= j < |stmts| ==> !IsRepeat(stmts[j])
    ensures WellFormed(stmts, i, resume)
    ensures Dispatched(stmts, i, resume) == Body(stmts, i, |stmts|)
    decreases |stmts| - i
  {
    if i < |stmts| {
      DispatchedPlain(stmts, i + 1, resume);
      assert Body(stmts, i, |stmts|) == [stmts[i].tokens] + Body(stmts, i + 1, |stmts|);
    }
  }

  /** A `repeat` at `i` with a good count, an `end` and a well-formed
      remainder is well formed, and dispatches its block and then the rest. */
  lemma RepeatWellFormed(stmts: seq<Stmt>, i: nat, resume: Resume, k: nat)
    requires i < |stmts| && IsRepeat(stmts[i]) && GoodCount(stmts[i]) && HasEnd(stmts, i + 1)
    requires k == FindEnd(stmts, i + 1)
    requires WellFormed(stmts, Next(resume, k), resume)
    ensures WellFormed(stmts, i, resume)
    ensures Dispatched(stmts, i, resume) ==
      Repeat(Body(stmts, i + 1, k), RepeatCount(stmts[i])) + Dispatched(stmts, Next(resume, k), resume)
  {
  }

  /** `repeat N; s1; ...; sm; end` at `i`, with `end` at `k`: the body runs
      N times in order, then the scan goes on past the block (after `end` for
      the 2D pages; at `end`, dispatched as one more command, for the 3D
      pages). */
  lemma RepeatBlock(stmts: seq<Stmt>, i: nat, k: nat, resume: Resume)
    requires i < k < |stmts|
    requires IsRepeat(stmts[i]) && GoodCount(stmts[i])
    requires forall j :: i < j < k ==> !stmts[j].isEnd
    requires stmts[k].isEnd
    requires WellFormed(stmts, Next(resume, k), resume)
    ensures WellFormed(stmts, i, resume)
    ensures Dispatched(stmts, i, resume) ==
      Repeat(Body(stmts, i + 1, k), RepeatCount(stmts[i])) + Dispatched(stmts, Next(resume, k), resume)
  {
    assert HasEnd(stmts, i + 1);
    var e := FindEnd(stmts, i + 1);
    if e > k {
      FindEndFirst(stmts, i + 1, k);
    }
    RepeatWellFormed(stmts, i, resume, k);
  }

  /** Every dispatched command is the token list of a statement of the input. */
  lemma {:induction false} DispatchedFromInput(stmts: seq<Stmt>, i: nat, resume: Resume)
    requires WellFormed(stmts, i, resume)
    ensures forall c :: c in Dispatched(stmts, i, resume) ==>
      exists j :: i <= j < |stmts| && c == stmts[j].tokens
    decreases |stmts| - i
  {
    if i < |stmts| {
      if IsRepeat(stmts[i]) {
        var k := FindEnd(stmts, i + 1);
        DispatchedFromInput(stmts, Next(resume, k), resume);
        RepeatElements(Body(stmts, i + 1, k), RepeatCount(stmts[i]));
        var b := Body(stmts, i + 1, k);
        forall c | c in b
          ensures exists j :: i <= j < |stmts| && c == stmts[j].tokens
        {
          var m :| 0 <= m < |b| && b[m] == c;
          BodyAt(stmts, i + 1, k, i + 1 + m);
        }
      } else {
        DispatchedFromInput(stmts, i + 1, resume);
      }
    }
  }

  lemma {:induction false} RepeatElements<T>(block: seq<T>, n: nat)
    ensures forall x :: x in Repeat(block, n) ==> x in block
    ensures n >= 1 ==> forall x :: x in block ==> x in Repeat(block, n)
  {
    if n > 0 {
      RepeatElements(block, n - 1);
    }
  }

  /** Peeling one round off the front of a repetition. */
  lemma RepeatUnfold<T>(block: seq<T>, n: nat, m: nat, tail: seq<T>)
    requires n == m + 1
    ensures Repeat(block, n) + tail == block + (Repeat(block, m) + tail)
  {
    assert Repeat(block, n) == block + Repeat(block, m);
  }

  lemma RepeatZero<T>(block: seq<T>, tail: seq<T>)
    ensures Repeat(block, 0) + tail == tail
  {
    assert Repeat(block, 0) == [];
  }

  // ----------------------------------------------- the two ways of resuming

  /** The tokens of a statement only depend on its trimmed text. */
  lemma TokensOfTrimmed(raw: string, trimmed: string)
    requires Trim(raw) == trimmed
    ensures Tokens(raw) == Split(Lower(trimmed), ' ')
  {
    TrimLowerCommute(raw);
  }

  lemma EndWord()
    ensures Split(Lower("end"), ' ') == ["end"]
  {
    var low := Lower("end");
    assert low == "end" by {
      assert low[0] == 'e' && low[1] == 'n' && low[2] == 'd';
    }
    SplitNoSep(low, ' ');
  }

  /** A statement whose trimmed text is `end` is cut into the single token
      `end`. */
  lemma EndTokens(raw: string)
    requires ParseStmt(raw).isEnd
    ensures ParseStmt(raw).tokens == ["end"]
  {
    TokensOfTrimmed(raw, "end");
    EndWord();
  }

  /** Statements read from an input: every `end` statement is the command
      `end`. */
  predicate EndsAreEnd(stmts: seq<Stmt>) {
    forall i :: 0 <= i < |stmts| && stmts[i].isEnd ==> stmts[i].tokens == ["end"]
  }

  lemma StatementsEndsAreEnd(input: string)
    ensures EndsAreEnd(Statements(input))
  {
    var stmts := Statements(input);
    forall i | 0 <= i < |stmts| && stmts[i].isEnd
      ensures stmts[i].tokens == ["end"]
    {
      EndTokens(Split(input, ';')[i]);
    }
  }

  /** The dispatched commands with every `end` command removed. */
  function DropEnds(cmds: seq<seq<string>>): (r: seq<seq<string>>)
    ensures |r| <= |cmds|
    ensures forall c :: c in r ==> c in cmds && c != ["end"]
  {
    if cmds == [] then []
    else (if cmds[0] == ["end"] then [] else [cmds[0]]) + DropEnds(cmds[1..])
  }

  lemma {:induction false} DropEndsAppend(a: seq<seq<string>>, b: seq<seq<string>>)
    ensures DropEnds(a + b) == DropEnds(a) + DropEnds(b)
  {
    if a != [] {
      assert (a + b)[1..] == a[1..] + b;
      DropEndsAppend(a[1..], b);
    } else {
      assert a + b == b;
    }
  }

  /** An `end` statement in a list read from an input is dispatched as the
      command `end`, followed by what comes after it. */
  lemma EndStep(stmts: seq<Stmt>, k: nat, after: nat, resume: Resume)
    requires EndsAreEnd(stmts) && k < |stmts| && stmts[k].isEnd && after == k + 1
    requires WellFormed(stmts, after, resume)
    ensures WellFormed(stmts, k, resume)
    ensures Dispatched(stmts, k, resume) == [["end"]] + Dispatched(stmts, after, resume)
  {
    assert stmts[k].tokens == ["end"];
    assert !IsRepeat(stmts[k]);
  }

  /** Both scans accept the same inputs and, `end` commands aside, dispatch
      the same commands in the same order; the 3D scan only adds one `end`
      command after each block. */
  lemma {:induction false} ResumeAgree(stmts: seq<Stmt>, i: nat)
    requires EndsAreEnd(stmts)
    requires WellFormed(stmts, i, AfterEnd)
    ensures WellFormed(stmts, i, AtEnd)
    ensures DropEnds(Dispatched(stmts, i, AtEnd)) == DropEnds(Dispatched(stmts, i, AfterEnd))
    decreases |stmts| - i, 1
  {
    if i < |stmts| {
      if IsRepeat(stmts[i]) {
        ResumeAgreeRepeat(stmts, i);
      } else {
        ResumeAgree(stmts, i + 1);
        DropEndsAppend([stmts[i].tokens], Dispatched(stmts, i + 1, AtEnd));
        DropEndsAppend([stmts[i].tokens], Dispatched(stmts, i + 1, AfterEnd));
      }
    }
  }

  /** `ResumeAgree` at a `repeat`. */
  lemma {:induction false} ResumeAgreeRepeat(stmts: seq<Stmt>, i: nat)
    requires EndsAreEnd(stmts)
    requires i < |stmts| && IsRepeat(stmts[i]) && WellFormed(stmts, i, AfterEnd)
    ensures WellFormed(stmts, i, AtEnd)
    ensures DropEnds(Dispatched(stmts, i, AtEnd)) == DropEnds(Dispatched(stmts, i, AfterEnd))
    decreases |stmts| - i, 0
  {
    DispatchedRepeat(stmts, i, AfterEnd);
    var k := FindEnd(stmts, i + 1);
    var after := Next(AfterEnd, k);
    assert after == k + 1;
    var block := Repeat(Body(stmts, i + 1, k), RepeatCount(stmts[i]));
    ResumeAgree(stmts, after);
    EndStep(stmts, k, after, AtEnd);
    RepeatWellFormed(stmts, i, AtEnd, k);
    var dAt, dAfter := Dispatched(stmts, after, AtEnd), Dispatched(stmts, after, AfterEnd);
    assert Next(AtEnd, k) == k;
    assert Dispatched(stmts, i, AtEnd) == block + ([["end"]] + dAt);
    assert Dispatched(stmts, i, AfterEnd) == block + dAfter;
    DropEndsAppend(block, [["end"]] + dAt);
    DropEndsAppend(block, dAfter);
    DropEndsAppend([["end"]], dAt);
    assert DropEnds([["end"]]) == [] by {
      assert [["end"]][1..] == [];
    }
    assert DropEnds([["end"]] + dAt) == DropEnds(dAt);
  }
}
