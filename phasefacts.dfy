/** What each phase of one parser level does with the tokens in front of
    it, for every token list: the optional name or group, the parameter
    list and its comma-separated runs, the array dimensions, and the
    check that nothing is left over. */
module PhaseFacts {
  import opened Base
  import opened Tokens
  import opened Ast
  import opened LexSpec
  import opened ParseSpec

  /** The name-or-group phase at `i`: a keyword used as a name is refused
      with the keyword in the message, any other name is skipped, a group
      is kept for later, and anything else is left where it is. */
  lemma NameOrGroupCases(items: seq<Token>, i: nat)
    requires 0 < |items| && i <= |items|
    ensures var r := NameOrGroup(items, i);
      && (r.Err? <==> i < |items| && IsName(items[i]) && items[i].text in KEYWORDS)
      && (r.Err? ==> r.error == ErrorAt(items, i, "cannot use '" + items[i].text + "' as an identifier")
                     && r.error.at == TokSpan(items[i]))
      && (r.Ok? ==> (r.value.0 == i + 1 <==> i < |items| && (IsName(items[i]) || IsGroup(items[i]))))
      && (r.Ok? ==> r.value.0 == i || r.value.0 == i + 1)
      && (r.Ok? ==> (r.value.1.Some? <==> i < |items| && IsGroup(items[i])))
      && (r.Ok? && r.value.1.Some? ==> r.value.1.value == items[i])
  {
  }

  /** One dimension at `i`: `[` followed by an optional number and then
      `]`.  `[n]` adds the value of `n`, `[]` adds no size, and the scan
      goes on after the `]`; a missing `]` is "expected ]" at the token
      found instead, and running out of tokens is "expected another token"
      just past the last one. */
  lemma DimensionCases(items: seq<Token>, i: nat, dims: seq<Option<nat>>)
    requires 0 < |items| && i <= |items|
    ensures !(i < |items| && IsPunct(items[i], "[")) ==> Dimensions(items, i, dims) == Ok((i, dims))
    ensures i < |items| && IsPunct(items[i], "[") ==>
      var j := i + 1;
      var off := Err(ErrorAt(items, |items|, "expected another token"));
      && (j == |items| ==> Dimensions(items, i, dims) == off)
      && (j < |items| && !IsNum(items[j]) ==>
            Dimensions(items, i, dims)
              == if IsPunct(items[j], "]") then Dimensions(items, j + 1, dims + [None])
                 else Err(ErrorAt(items, j, "expected ]")))
      && (j < |items| && IsNum(items[j]) && GetNum(items[j]).Err? ==>
            Dimensions(items, i, dims) == Err(InternalError))
      && (j < |items| && IsNum(items[j]) && GetNum(items[j]).Ok? ==>
            Dimensions(items, i, dims)
              == if j + 1 == |items| then off
                 else if IsPunct(items[j + 1], "]") then Dimensions(items, j + 2, dims + [Some(GetNum(items[j]).value)])
                 else Err(ErrorAt(items, j + 1, "expected ]")))
  {
  }

  /** The dimensions read before `i` only prefix the result: reading from
      `i` with `pre` already read gives what reading from `i` with nothing
      read gives, with `pre` in front. */
  lemma {:induction false} DimensionsPrefix(items: seq<Token>, i: nat, pre: seq<Option<nat>>)
    requires 0 < |items| && i <= |items|
    ensures var r := Dimensions(items, i, pre);
      var r0 := Dimensions(items, i, []);
      && (r.Ok? <==> r0.Ok?)
      && (r.Ok? ==> r.value == (r0.value.0, pre + r0.value.1))
      && (r.Err? ==> r.error == r0.error)
    decreases |items| - i
  {
    if i < |items| && IsPunct(items[i], "[") && i + 1 < |items| {
      var j := i + 1;
      var k := if IsNum(items[j]) then j + 1 else j;
      if GetNum(items[j]).Ok? || !IsNum(items[j]) {
        if k < |items| && IsPunct(items[k], "]") {
          var d := if IsNum(items[j]) then Some(GetNum(items[j]).value) else None;
          assert Dimensions(items, i, pre) == Dimensions(items, k + 1, pre + [d]);
          assert [] + [d] == [d];
          assert Dimensions(items, i, []) == Dimensions(items, k + 1, [d]);
          DimensionsPrefix(items, k + 1, pre + [d]);
          DimensionsPrefix(items, k + 1, [d]);
          var r0 := Dimensions(items, k + 1, []);
          if r0.Ok? {
            assert pre + [d] + r0.value.1 == pre + ([d] + r0.value.1);
          }
        }
      }
    } else {
      assert pre + [] == pre;
    }
  }

  /** How many `[` tokens lie in `items[lo..hi]`. */
  function Opens(items: seq<Token>, lo: nat, hi: nat): (n: nat)
    requires lo <= hi <= |items|
    ensures n <= hi - lo
    decreases hi - lo
  {
    if lo == hi then 0 else (if IsPunct(items[lo], "[") then 1 else 0) + Opens(items, lo + 1, hi)
  }

  /** A successful dimension scan reads one dimension per `[` it passes,
      and stops at a token that is not `[`. */
  lemma {:induction false} DimensionsCount(items: seq<Token>, i: nat, dims: seq<Option<nat>>)
    requires 0 < |items| && i <= |items|
    ensures var r := Dimensions(items, i, dims);
      r.Ok? ==> |r.value.1| == |dims| + Opens(items, i, r.value.0) && r.value.1[..|dims|] == dims
    decreases |items| - i
  {
    var r := Dimensions(items, i, dims);
    if r.Ok? && i < |items| && IsPunct(items[i], "[") {
      var j := i + 1;
      var k := if IsNum(items[j]) then j + 1 else j;
      var d := if IsNum(items[j]) then Some(GetNum(items[j]).value) else None;
      assert r == Dimensions(items, k + 1, dims + [d]);
      DimensionsCount(items, k + 1, dims + [d]);
      assert (dims + [d] + r.value.1[|dims| + 1..])[..|dims|] == dims;
      assert r.value.1[..|dims| + 1] == dims + [d];
      assert !IsPunct(items[k], "[");
      assert k == j + 1 ==> !IsPunct(items[j], "[");
      assert Opens(items, i, r.value.0) == 1 + Opens(items, i + 1, r.value.0);
      assert Opens(items, j, r.value.0) == Opens(items, k + 1, r.value.0) by {
        if k == j + 1 {
          assert Opens(items, j, r.value.0) == Opens(items, j + 1, r.value.0);
        }
        assert Opens(items, k, r.value.0) == Opens(items, k + 1, r.value.0);
      }
    } else if r.Ok? {
      assert r.value == (i, dims);
    }
  }

  /** The parameter list at `k`: none without a group there; `()` takes
      any parameters, `(void)` takes none, and any other group is read as
      the parameters `ParseParams` parses from it. */
  lemma ParamListCases(items: seq<Token>, k: nat)
    requires 0 < |items| && k <= |items|
    ensures !(k < |items| && IsGroup(items[k])) ==> ParamList(items, k) == Ok((k, None))
    ensures k < |items| && IsGroup(items[k]) ==>
      var pg := items[k].items;
      var ps := ParseParams(pg, 0, []);
      && (|pg| == 0 ==> ParamList(items, k) == Ok((k + 1, Some(AnyParams))))
      && (|pg| == 1 && IsPunct(pg[0], "void") ==> ParamList(items, k) == Ok((k + 1, Some(Declared([])))))
      && (|pg| > 0 && !(|pg| == 1 && IsPunct(pg[0], "void")) ==>
            ParamList(items, k) == if ps.Ok? then Ok((k + 1, Some(Declared(ps.value)))) else Err(ps.error))
  {
  }

  /** The runs of a parameter group from `i`: the tokens up to each `,`
      or the end, one run per parameter; the `,` ending the group starts
      no further run. */
  function Runs(pg: seq<Token>, i: nat): (runs: seq<seq<Token>>)
    requires i <= |pg|
    ensures forall j, k :: 0 <= j < |runs| && 0 <= k < |runs[j]| ==> !IsPunct(runs[j][k], ",")
    decreases |pg| - i
  {
    if i >= |pg| then []
    else
      var j := CommaAt(pg, i);
      [pg[i..j]] + Runs(pg, if j < |pg| then j + 1 else j)
  }

  /** A `,` at the end of a parameter group adds no run. */
  lemma {:induction false} TrailingCommaAddsNoRun(p: seq<Token>, comma: Token, i: nat)
    requires i < |p| && !IsPunct(p[|p| - 1], ",") && IsPunct(comma, ",")
    ensures Runs(p + [comma], i) == Runs(p, i)
    decreases |p| - i
  {
    var q := p + [comma];
    var j := CommaAt(p, i);
    CommaAtExtend(p, comma, i);
    assert q[i..j] == p[i..j];
    if j < |p| {
      assert j + 1 < |p|;
      assert Runs(q, i) == [p[i..j]] + Runs(q, j + 1);
      assert Runs(p, i) == [p[i..j]] + Runs(p, j + 1);
      TrailingCommaAddsNoRun(p, comma, j + 1);
    } else {
      assert Runs(q, i) == [p[i..j]] + Runs(q, |q|);
      assert Runs(p, i) == [p[i..j]] + Runs(p, |p|);
    }
  }

  /** Appending a `,` does not move the first comma of `p` at or after
      `i`, and when `p` has none it is found at the end. */
  lemma {:induction false} CommaAtExtend(p: seq<Token>, comma: Token, i: nat)
    requires i <= |p| && IsPunct(comma, ",")
    ensures CommaAt(p + [comma], i) == CommaAt(p, i)
    decreases |p| - i
  {
    if i < |p| && !IsPunct(p[i], ",") {
      assert (p + [comma])[i] == p[i];
      CommaAtExtend(p, comma, i + 1);
    }
  }

  /** Parsing each run with `f` in order, after the nodes in `acc`,
      stopping at the first run that fails. */
  function ParseRuns(f: seq<Token> -> Result<Node>, runs: seq<seq<Token>>, acc: seq<Node>): Result<seq<Node>>
    decreases |runs|
  {
    if runs == [] then Ok(acc)
    else
      var node :- f(runs[0]);
      ParseRuns(f, runs[1..], acc + [node])
  }

  /** The parameter loop is the parse of each run in turn. */
  lemma {:induction false} ParseParamsAreRuns(pg: seq<Token>, i: nat, acc: seq<Node>)
    requires i <= |pg|
    ensures ParseParams(pg, i, acc) == ParseRuns(ParseParam, Runs(pg, i), acc)
    decreases |pg| - i
  {
    if i < |pg| {
      var j := CommaAt(pg, i);
      var next := if j < |pg| then j + 1 else j;
      var runs := Runs(pg, i);
      assert runs[0] == pg[i..j] && runs[1..] == Runs(pg, next);
      var first := ParseParam(pg[i..j]);
      if first.Ok? {
        ParseParamsAreRuns(pg, next, acc + [first.value]);
      }
    }
  }

  /** Parsing runs in turn succeeds exactly when every run parses, then
      adds one node per run after `acc`, in order; otherwise it fails with
      the error of the first run that does not parse. */
  lemma {:induction false} ParseRunsFacts(f: seq<Token> -> Result<Node>, runs: seq<seq<Token>>, acc: seq<Node>)
    ensures var r := ParseRuns(f, runs, acc);
      && (r.Ok? <==> forall j :: 0 <= j < |runs| ==> f(runs[j]).Ok?)
      && (r.Ok? ==> |r.value| == |acc| + |runs| && r.value[..|acc|] == acc
                    && forall j :: 0 <= j < |runs| ==> r.value[|acc| + j] == f(runs[j]).value)
      && (r.Err? ==> exists j :: 0 <= j < |runs| && f(runs[j]).Err? && r.error == f(runs[j]).error
                       && forall j' :: 0 <= j' < j ==> f(runs[j']).Ok?)
    decreases |runs|
  {
    if runs == [] {
      assert acc[..|acc|] == acc;
    } else {
      var first := f(runs[0]);
      if first.Err? {
        assert ParseRuns(f, runs, acc) == Err(first.error);
      } else {
        var acc' := acc + [first.value];
        var rest := runs[1..];
        ParseRunsFacts(f, rest, acc');
        var r := ParseRuns(f, rest, acc');
        assert ParseRuns(f, runs, acc) == r;
        if r.Ok? {
          assert r.value[..|acc|] == r.value[..|acc'|][..|acc|];
          forall m | 0 <= m < |runs|
            ensures f(runs[m]).Ok? && r.value[|acc| + m] == f(runs[m]).value
          {
            if m > 0 {
              assert runs[m] == rest[m - 1];
            } else {
              assert r.value[|acc|] == r.value[..|acc'|][|acc|];
            }
          }
        } else {
          var m :| 0 <= m < |rest| && f(rest[m]).Err? && r.error == f(rest[m]).error
                   && forall j' :: 0 <= j' < m ==> f(rest[j']).Ok?;
          assert runs[m + 1] == rest[m];
          forall j' | 0 <= j' < m + 1
            ensures f(runs[j']).Ok?
          {
            if j' > 0 {
              assert runs[j'] == rest[j' - 1];
            }
          }
        }
      }
    }
  }

  /** A parameter group other than `()` and `(void)` declares one
      parameter per comma-separated run, each parsed on its own, in
      order; the first run that does not parse fails the list. */
  lemma ParamListRuns(items: seq<Token>, k: nat)
    requires 0 < |items| && k < |items| && IsGroup(items[k])
    requires |items[k].items| > 0 && !(|items[k].items| == 1 && IsPunct(items[k].items[0], "void"))
    ensures var r := ParamList(items, k);
      var runs := Runs(items[k].items, 0);
      && (r.Ok? <==> forall j :: 0 <= j < |runs| ==> ParseParam(runs[j]).Ok?)
      && (r.Ok? ==> r.value.0 == k + 1 && r.value.1.Some? && r.value.1.value.Declared?
                    && |r.value.1.value.list| == |runs|
                    && forall j :: 0 <= j < |runs| ==> r.value.1.value.list[j] == ParseParam(runs[j]).value)
      && (r.Err? ==> exists j :: 0 <= j < |runs| && ParseParam(runs[j]).Err? && r.error == ParseParam(runs[j]).error
                       && forall j' :: 0 <= j' < j ==> ParseParam(runs[j']).Ok?)
  {
    ParamListCases(items, k);
    ParseParamsAreRuns(items[k].items, 0, []);
    ParseRunsFacts(ParseParam, Runs(items[k].items, 0), []);
  }

  /** After the dimensions every token must have been used: once the
      phases before it succeed, a token left over is "unexpected tokens"
      at that token, and a declarator that succeeds has used them all. */
  lemma NothingLeftOver(items: seq<Token>, i: nat, child: Option<Node>, voidTok: Option<Token>)
    requires 0 < |items| && i <= |items|
    ensures var p := Pointers(items, i, child);
      var ng := NameOrGroup(items, p.0);
      ng.Ok? ==>
        var pl := ParamList(items, ng.value.0);
        pl.Ok? ==>
          var dm := Dimensions(items, pl.value.0, []);
          dm.Ok? && WrapArrays(dm.value.1, p.1, voidTok).Ok? ==>
            && (dm.value.0 < |items| ==>
                  Declarator(items, i, child, voidTok) == Err(ErrorAt(items, dm.value.0, "unexpected tokens")))
            && (Declarator(items, i, child, voidTok).Ok? ==> dm.value.0 == |items|)
    ensures Declarator(items, i, child, voidTok).Ok? ==>
      var p := Pointers(items, i, child);
      && NameOrGroup(items, p.0).Ok?
      && ParamList(items, NameOrGroup(items, p.0).value.0).Ok?
      && Dimensions(items, ParamList(items, NameOrGroup(items, p.0).value.0).value.0, []).Ok?
  {
  }
}
