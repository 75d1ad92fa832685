/** Resolution of CommonJS module identifiers, in place in a buffer of fixed size. */
module ModuleIds {

  const LIMIT: nat := 256
  const NUL: char := '\0'

  datatype Base = NoBase | Base(id: string)

  /** What the resolver pushes: the absolute identifier and its last term, or an error. */
  datatype Answer = Answer(id: string, last: string) | CannotResolve

  predicate CString(s: string) {
    NUL !in s
  }

  /** The text to resolve: a relative identifier is put behind the parent of the current module. */
  function Input(req: string, base: Base): string {
    if base.Base? && req != "" && req[0] == '.' then base.id + "/../" + req else req
  }

  // ---------------------------------------------------------------- the specification: a stack of terms

  /** The characters before the first slash. */
  function Term(s: string): (t: string)
    ensures t <= s && '/' !in t && (|t| < |s| ==> s[|t|] == '/')
  {
    if s == "" || s[0] == '/' then "" else [s[0]] + Term(s[1..])
  }

  function AfterSlashes(s: string): (r: string)
    ensures |r| <= |s| && (s != "" && s[0] == '/' ==> |r| < |s|)
  {
    if s != "" && s[0] == '/' then AfterSlashes(s[1..]) else s
  }

  /** The terms of an identifier; several slashes in a row separate like one. */
  function Terms(s: string): (ts: seq<string>)
    ensures ts != []
    decreases |s|
  {
    var t := Term(s);
    if |t| == |s| then [t] else [t] + Terms(AfterSlashes(s[|t|..]))
  }

  predicate Ordinary(t: string) {
    t != "" && t[0] != '.' && '/' !in t
  }

  datatype Resolution = Resolved(terms: seq<string>) | Failed

  /** '.' stays, '..' goes back, any other term must be an ordinary one, and the last must be. */
  function Walk(stack: seq<string>, terms: seq<string>): Resolution
    requires terms != []
    decreases |terms|
  {
    if |terms| == 1 then
      if Ordinary(terms[0]) then Resolved(stack + [terms[0]]) else Failed
    else if terms[0] == "." then Walk(stack, terms[1..])
    else if terms[0] == ".." then
      if stack == [] then Failed else Walk(stack[..|stack| - 1], terms[1..])
    else if Ordinary(terms[0]) then Walk(stack + [terms[0]], terms[1..])
    else Failed
  }

  /** The terms followed by a slash each. */
  function Dirs(terms: seq<string>): string {
    if terms == [] then "" else Dirs(terms[..|terms| - 1]) + terms[|terms| - 1] + "/"
  }

  function Join(terms: seq<string>): string
    requires terms != []
  {
    Dirs(terms[..|terms| - 1]) + terms[|terms| - 1]
  }

  function AnswerOf(r: Resolution): Answer
    requires r.Resolved? ==> r.terms != []
  {
    match r
    case Resolved(terms) => Answer(Join(terms), terms[|terms| - 1])
    case Failed => CannotResolve
  }

  /** The identifier meant by a request, if its text fits the buffer and its terms can be walked. */
  function Resolve(req: string, base: Base): Answer {
    var text := Input(req, base);
    WalkEndsInTerm([], Terms(text));
    if |text| >= LIMIT then CannotResolve else AnswerOf(Walk([], Terms(text)))
  }

  predicate AllOrdinary(terms: seq<string>) {
    forall i :: 0 <= i < |terms| ==> Ordinary(terms[i])
  }

  lemma {:induction false} WalkEndsInTerm(stack: seq<string>, terms: seq<string>)
    requires terms != []
    ensures var r := Walk(stack, terms); r.Resolved? ==> r.terms != []
    ensures AllOrdinary(stack) && Walk(stack, terms).Resolved? ==> AllOrdinary(Walk(stack, terms).terms)
    decreases |terms|
  {
    if |terms| > 1 {
      if terms[0] == "." {
        WalkEndsInTerm(stack, terms[1..]);
      } else if terms[0] == ".." {
        if stack != [] { WalkEndsInTerm(stack[..|stack| - 1], terms[1..]); }
      } else if Ordinary(terms[0]) {
        WalkEndsInTerm(stack + [terms[0]], terms[1..]);
      }
    }
  }

  // ---------------------------------------------------------------- the specification: what it means

  lemma {:induction false} TermOf(t: string, s: string)
    requires '/' !in t && (s == "" || s[0] == '/')
    ensures Term(t + s) == t
  {
    if t != "" {
      assert (t + s)[1..] == t[1..] + s;
      TermOf(t[1..], s);
    }
  }

  lemma FirstOfTerms(t: string, s: string)
    requires '/' !in t
    ensures Terms(t) == [t]
    ensures Terms(t + "/" + s) == [t] + Terms(AfterSlashes(s))
  {
    TermOf(t, "");
    assert t + "" == t;
    TermOf(t, "/" + s);
    assert t + "/" + s == t + ("/" + s);
    assert (t + "/" + s)[|t|..] == "/" + s && ("/" + s)[1..] == s;
  }

  lemma NoSlashAhead(t: string, s: string)
    requires t != "" && t[0] != '/'
    ensures AfterSlashes(t + s) == t + s && AfterSlashes(t) == t
  {
  }

  lemma {:induction false} TermsOfDirs(terms: seq<string>, s: string)
    requires AllOrdinary(terms) && AfterSlashes(s) == s
    ensures Terms(Dirs(terms) + s) == terms + Terms(s)
  {
    hide Terms, AfterSlashes;
    if terms == [] {
      assert Dirs(terms) + s == s;
    } else {
      var k := |terms| - 1;
      var rest := terms[k] + "/" + s;
      assert rest == terms[k] + ("/" + s);
      NoSlashAhead(terms[k], "/" + s);
      TermsOfDirs(terms[..k], rest);
      assert Dirs(terms) + s == Dirs(terms[..k]) + rest;
      FirstOfTerms(terms[k], s);
      assert terms == terms[..k] + [terms[k]];
    }
  }

  /** Splitting what was joined. */
  lemma TermsOfJoin(terms: seq<string>)
    requires AllOrdinary(terms) && terms != []
    ensures Terms(Join(terms)) == terms
  {
    hide Terms, AfterSlashes, Dirs;
    var k := |terms| - 1;
    NoSlashAhead(terms[k], "");
    TermsOfDirs(terms[..k], terms[k]);
    FirstOfTerms(terms[k], "");
    assert terms == terms[..k] + [terms[k]];
  }

  lemma {:induction false} WalkOrdinary(stack: seq<string>, terms: seq<string>)
    requires AllOrdinary(terms) && terms != []
    ensures Walk(stack, terms) == Resolved(stack + terms)
    decreases |terms|
  {
    if |terms| > 1 {
      WalkOrdinary(stack + [terms[0]], terms[1..]);
      assert stack + [terms[0]] + terms[1..] == stack + terms;
    } else {
      assert terms == [terms[0]];
    }
  }

  /** The terms of an input, and of an output, are never longer than the text they come from. */
  lemma {:induction false} WalkShrinks(stack: seq<string>, s: string)
    ensures var r := Walk(stack, Terms(s));
      r.Resolved? ==> r.terms != [] && |Join(r.terms)| <= |Dirs(stack)| + |s|
    decreases |s|
  {
    var t := Term(s);
    if |t| == |s| {
      assert (stack + [t])[..|stack|] == stack;
    } else {
      var rest := AfterSlashes(s[|t|..]);
      assert Terms(s)[1..] == Terms(rest);
      if t == "." {
        WalkShrinks(stack, rest);
      } else if t == ".." {
        if stack != [] {
          WalkShrinks(stack[..|stack| - 1], rest);
        }
      } else if Ordinary(t) {
        assert (stack + [t])[..|stack|] == stack;
        WalkShrinks(stack + [t], rest);
      }
    }
  }

  /** A resolved identifier is normal: it resolves to itself, alone or from any module. */
  lemma ResolvedIsNormal(req: string, base: Base, base': Base)
    requires Resolve(req, base).Answer?
    ensures var id := Resolve(req, base).id;
      AllOrdinary(Terms(id)) && Resolve(id, base') == Resolve(req, base) &&
      Resolve(req, base).last == Terms(id)[|Terms(id)| - 1]
  {
    var text := Input(req, base);
    WalkEndsInTerm([], Terms(text));
    WalkShrinks([], text);
    var terms := Walk([], Terms(text)).terms;
    TermsOfJoin(terms);
    WalkOrdinary([], terms);
    assert [] + terms == terms;
    var id := Join(terms);
    assert id[0] != '.' by {
      JoinStarts(terms);
    }
  }

  lemma {:induction false} DirsStart(terms: seq<string>)
    requires AllOrdinary(terms) && terms != []
    ensures Dirs(terms) != "" && Dirs(terms)[0] == terms[0][0]
  {
    if |terms| > 1 {
      DirsStart(terms[..|terms| - 1]);
    }
  }

  lemma JoinStarts(terms: seq<string>)
    requires AllOrdinary(terms) && terms != []
    ensures Join(terms) != "" && Join(terms)[0] == terms[0][0]
  {
    if |terms| > 1 {
      DirsStart(terms[..|terms| - 1]);
    }
  }

  /** Walking past terms that are all ordinary, whatever follows. */
  lemma {:induction false} WalkPast(stack: seq<string>, terms: seq<string>, more: seq<string>)
    requires AllOrdinary(terms) && more != []
    ensures Walk(stack, terms + more) == Walk(stack + terms, more)
    decreases |terms|
  {
    if terms == [] {
      assert terms + more == more && stack + terms == stack;
    } else {
      assert (terms + more)[1..] == terms[1..] + more;
      WalkPast(stack + [terms[0]], terms[1..], more);
      assert stack + [terms[0]] + terms[1..] == stack + terms;
    }
  }

  lemma WalkBack(stack: seq<string>, more: seq<string>)
    requires stack != [] && more != []
    ensures Walk(stack, [".."] + more) == Walk(stack[..|stack| - 1], more)
  {
    assert ([".."] + more)[1..] == more;
  }

  lemma RelativeTerms(req: string, terms: seq<string>)
    requires req != "" && req[0] == '.' && AllOrdinary(terms) && terms != []
    ensures Terms(Join(terms) + "/../" + req) == terms + ([".."] + Terms(req))
  {
    hide Terms, AfterSlashes, Dirs;
    var k := |terms| - 1;
    var up := "../" + req;
    NoSlashAhead(req, "");
    assert up == ".." + "/" + req;
    FirstOfTerms("..", req);
    assert Terms(up) == [".."] + Terms(req);
    assert up == ".." + ("/" + req);
    NoSlashAhead("..", "/" + req);
    TermsOfDirs(terms, up);
    DirsIsJoin(terms);
    assert Join(terms) + "/../" + req == Dirs(terms) + up;
  }

  lemma DirsIsJoin(terms: seq<string>)
    requires terms != []
    ensures Dirs(terms) == Join(terms) + "/"
  {
  }

  /** A relative identifier is walked from the parent of the module that asks for it. */
  lemma RelativeToParent(req: string, terms: seq<string>)
    requires req != "" && req[0] == '.' && AllOrdinary(terms) && terms != []
    requires |Join(terms)| + 4 + |req| < LIMIT
    ensures var r := Walk(terms[..|terms| - 1], Terms(req));
      (r.Resolved? ==> r.terms != []) && Resolve(req, Base(Join(terms))) == AnswerOf(r)
  {
    hide Terms, Walk, AnswerOf, Join;
    var text := Input(req, Base(Join(terms)));
    RelativeTerms(req, terms);
    WalkPast([], terms, [".."] + Terms(req));
    assert [] + terms == terms;
    WalkBack(terms, Terms(req));
    WalkEndsInTerm(terms[..|terms| - 1], Terms(req));
    WalkEndsInTerm([], Terms(text));
  }

  // ---------------------------------------------------------------- the resolver

  /** The unread part of the buffer still holds the text from p on. */
  predicate Unread(buf: array<char>, text: string, p: nat)
    reads buf
  {
    buf.Length == LIMIT && p <= |text| < LIMIT && buf[|text|] == NUL &&
    forall k :: p <= k < |text| ==> buf[k] == text[k]
  }

  /** The text from p on begins with a term and a slash. */
  lemma NextTerm(s: string, k: nat)
    requires k <= |s| && '/' !in s[..k] && (k < |s| ==> s[k] == '/')
    ensures k == |s| ==> Terms(s) == [s]
    ensures k < |s| ==> Terms(s) == [s[..k]] + Terms(AfterSlashes(s[k + 1..]))
  {
    if k == |s| {
      assert s[..k] == s;
      FirstOfTerms(s, "");
    } else {
      assert s == s[..k] + "/" + s[k + 1..];
      FirstOfTerms(s[..k], s[k + 1..]);
    }
  }

  /** The loop is at the start of a term: the output so far, and what the rest will lead to. */
  ghost predicate AtTerm(buf: array<char>, text: string, p: nat, q: nat, stack: seq<string>)
    reads buf
  {
    Unread(buf, text, p) && q <= p && buf[..q] == Dirs(stack) && AllOrdinary(stack) &&
    Walk(stack, Terms(text[p..])) == Walk([], Terms(text))
  }

  /** Copies a term, and the slash behind it if there is one, down to q. */
  method CopyTerm(buf: array<char>, ghost text: string, start: nat, q0: nat) returns (p: nat, q: nat, last: bool)
    requires CString(text) && Unread(buf, text, start) && q0 <= start < |text| && text[start] != '/'
    modifies buf
    ensures Unread(buf, text, p) && start < p && q == q0 + (p - start)
    ensures forall k :: 0 <= k < q0 ==> buf[k] == old(buf[k])
    ensures forall k :: start <= k < p ==> buf[k - start + q0] == text[k]
    ensures forall k :: start <= k < p - 1 ==> text[k] != '/'
    ensures if last then p == |text| && text[p - 1] != '/' else text[p - 1] == '/'
  {
    hide Terms, Walk;
    p, q := start + 1, q0;
    var c := buf[start];
    while true
      invariant start < p <= |text| && q == q0 + (p - 1 - start) && c == text[p - 1] && c != '/'
      invariant Unread(buf, text, p) && forall k :: start <= k < p ==> text[k] != '/'
      invariant forall k :: 0 <= k < q0 ==> buf[k] == old(buf[k])
      invariant forall k :: start <= k < p - 1 ==> buf[k - start + q0] == text[k]
      decreases |text| - p
    {
      buf[q] := c;
      q := q + 1;
      c := buf[p];
      if c == NUL {
        TextEnds(text, p, c);
        last := true;
        return;
      }
      p := p + 1;
      if c == '/' {
        buf[q] := '/';
        q := q + 1;
        last := false;
        return;
      }
    }
  }

  lemma TextEnds(text: string, p: nat, c: char)
    requires CString(text) && p <= |text| && c == NUL && (p < |text| ==> c == text[p])
    ensures p == |text|
  {
    assert forall i :: 0 <= i < |text| ==> text[i] in text;
  }

  /** Skips the slashes at p. */
  method EatSlashes(buf: array<char>, ghost text: string, start: nat) returns (p: nat)
    requires Unread(buf, text, start)
    ensures start <= p <= |text| && AfterSlashes(text[start..]) == text[p..]
  {
    p := start;
    while buf[p] == '/'
      invariant start <= p <= |text| && AfterSlashes(text[start..]) == AfterSlashes(text[p..])
      decreases |text| - p
    {
      assert text[p..][1..] == text[p + 1..];
      p := p + 1;
    }
  }

  lemma {:induction false} DirsSlash(terms: seq<string>)
    requires AllOrdinary(terms)
    ensures Dirs(terms) == "" || Dirs(terms)[|Dirs(terms)| - 1] == '/'
    ensures Dirs(terms) == "" <==> terms == []
  {
  }

  /** Goes back over the last term of the output. */
  method Backtrack(buf: array<char>, q0: nat, ghost stack: seq<string>) returns (q: nat)
    requires AllOrdinary(stack) && stack != [] && q0 <= buf.Length && buf[..q0] == Dirs(stack)
    ensures q < q0 && buf[..q] == Dirs(stack[..|stack| - 1])
  {
    ghost var front, t := Dirs(stack[..|stack| - 1]), stack[|stack| - 1];
    DirsSlash(stack[..|stack| - 1]);
    assert Dirs(stack) == front + (t + "/");
    assert |front| < q0;
    q := q0 - 1;
    while q != 0 && buf[q - 1] != '/'
      invariant |front| <= q < q0
    {
      BackInTerm(buf[..q0], front, t, q);
      q := q - 1;
    }
    BackInTerm(buf[..q0], front, t, q);
    assert buf[..q] == buf[..q0][..q];
  }

  lemma BackInTerm(d: string, front: string, t: string, q: nat)
    requires d == front + (t + "/") && '/' !in t && |front| <= q < |d|
    requires front == "" || front[|front| - 1] == '/'
    ensures q == |front| ==> q == 0 || d[q - 1] == '/'
    ensures q > |front| ==> q != 0 && d[q - 1] != '/'
    ensures d[..|front|] == front
  {
    if q > |front| {
      assert t[q - 1 - |front|] in t && d[q - 1] == t[q - 1 - |front|];
    }
  }

  /** What one term followed by a slash does to the walk. */
  lemma StepTerm(stack: seq<string>, s: string, k: nat, rest: string)
    requires k < |s| && '/' !in s[..k] && s[k] == '/' && rest == AfterSlashes(s[k + 1..])
    ensures var t := s[..k];
      Walk(stack, Terms(s)) ==
        if t == "." then Walk(stack, Terms(rest))
        else if t == ".." then (if stack == [] then Failed else Walk(stack[..|stack| - 1], Terms(rest)))
        else if Ordinary(t) then Walk(stack + [t], Terms(rest))
        else Failed
  {
    hide Terms, AfterSlashes;
    NextTerm(s, k);
    assert ([s[..k]] + Terms(rest))[1..] == Terms(rest);
  }

  /** Inputs that cannot be walked: an empty term, or one that begins with a period but is not '.' or '..'. */
  lemma BadTerm(stack: seq<string>, s: string)
    requires !Ordinary(Term(s)) && (|Term(s)| < |s| ==> Term(s) != "." && Term(s) != "..")
    ensures Walk(stack, Terms(s)) == Failed
  {
    hide AfterSlashes;
    var t := Term(s);
    if |t| < |s| {
      assert t == s[..|t|];
      StepTerm(stack, s, |t|, AfterSlashes(s[|t| + 1..]));
    }
  }

  lemma LastTerm(stack: seq<string>, s: string)
    requires '/' !in s && Ordinary(s) && AllOrdinary(stack)
    ensures Walk(stack, Terms(s)) == Resolved(stack + [s])
    ensures Join(stack + [s]) == Dirs(stack) + s
  {
    FirstOfTerms(s, "");
    assert (stack + [s])[..|stack|] == stack;
  }

  /** The start of a term decides which one it is. */
  lemma TermStarts(s: string)
    requires s != ""
    ensures s[0] == '/' ==> Term(s) == "" && !Ordinary(Term(s))
    ensures s[0] != '/' ==> Term(s) != "" && Term(s)[0] == s[0]
    ensures s[0] == '.' && |s| > 1 && s[1] == '/' ==> Term(s) == "."
    ensures s[0] == '.' && |s| > 2 && s[1] == '.' && s[2] == '/' ==> Term(s) == ".."
    ensures s[0] == '.' && !(|s| > 1 && s[1] == '/') && !(|s| > 2 && s[1] == '.' && s[2] == '/') ==>
      !Ordinary(Term(s)) && (|Term(s)| < |s| ==> Term(s) != "." && Term(s) != "..")
  {
    if s[0] == '.' && |s| > 1 {
      assert s[1..][0] == s[1];
      if |s| > 2 { assert s[1..][1..][0] == s[2]; }
    }
  }

  /** A term that starts with a period: '.' is eaten, '..' goes back one term, anything else is an error. */
  method ReadDots(buf: array<char>, ghost text: string, start: nat, q0: nat, ghost stack0: seq<string>)
    returns (ok: bool, p: nat, q: nat, ghost stack: seq<string>)
    requires AtTerm(buf, text, start, q0, stack0) && CString(text) && buf[start] == '.'
    ensures ok ==> start < p <= |text| && AtTerm(buf, text, p, q, stack)
    ensures !ok ==> Walk([], Terms(text)) == Failed
  {
    hide Terms, Walk, Dirs, Term, AfterSlashes, Ordinary;
    ghost var s := text[start..];
    p, q, stack, ok := start, q0, stack0, false;
    TermStarts(s);
    if buf[p + 1] == '/' {
      StepTerm(stack, s, 1, AfterSlashes(s[2..]));
      p := EatSlashes(buf, text, p + 2);
      ok := true;
    } else if buf[p + 1] == '.' && buf[p + 2] == '/' {
      StepTerm(stack, s, 2, AfterSlashes(s[3..]));
      DirsSlash(stack);
      if q != 0 {
        q := Backtrack(buf, q, stack);
        stack := stack[..|stack| - 1];
        p := EatSlashes(buf, text, p + 3);
        ok := true;
      }
    } else {
      BadTerm(stack, s);
    }
  }

  /** `CopyTerm`, said of the whole output. */
  method MoveTerm(buf: array<char>, ghost text: string, start: nat, q0: nat)
    returns (last: bool, p: nat, q: nat, ghost term: string)
    requires CString(text) && Unread(buf, text, start) && q0 <= start < |text| && text[start] != '/' && text[start] != '.'
    modifies buf
    ensures Unread(buf, text, p) && start < p && q == q0 + (p - start)
    ensures Ordinary(term) && '/' !in term
    ensures if last then term == text[start..] && p == |text| else |term| < |text[start..]| && p == start + |term| + 1
    ensures last ==> buf[..q] == old(buf[..q0]) + term && buf[q0..q] == term
    ensures !last ==> text[start..] == term + "/" + text[p..] && buf[..q] == old(buf[..q0]) + term + "/"
  {
    ghost var before := buf[..];
    p, q, last := CopyTerm(buf, text, start, q0);
    term := text[start..if last then p else p - 1];
    TermIsOrdinary(term);
    forall k | 0 <= k < p - start ensures buf[..q][q0 + k] == text[start..p][k] {
      assert buf[(start + k) - start + q0] == text[start + k];
    }
    TermCopied(before[..q0], buf[..q], text[start..p]);
    if last {
      assert text[start..p] == text[start..];
      TermIsSuffix(buf[..q], before[..q0], term);
    } else {
      TermAndSlash(text, start, p);
      AppendSlash(before[..q0], term);
    }
  }

  /** Any other term is moved down to the output. */
  method ReadTerm(buf: array<char>, ghost text: string, start: nat, q0: nat, ghost stack0: seq<string>)
    returns (last: bool, p: nat, q: nat, ghost stack: seq<string>)
    requires AtTerm(buf, text, start, q0, stack0) && CString(text) && start < |text|
    requires buf[start] != '.' && buf[start] != '/'
    modifies buf
    ensures !last ==> start < p && AtTerm(buf, text, p, q, stack)
    ensures last ==> Walk([], Terms(text)) == Resolved(stack)
    ensures last ==> q0 <= q <= LIMIT && stack != [] && buf[..q] == Join(stack) && buf[q0..q] == stack[|stack| - 1]
  {
    hide Terms, Walk, Dirs, Term, AfterSlashes, Ordinary, Join;
    ghost var s := text[start..];
    ghost var term;
    last, p, q, term := MoveTerm(buf, text, start, q0);
    stack := stack0 + [term];
    if last {
      LastTerm(stack0, s);
    } else {
      assert s[..|term|] == term && s[|term| + 1..] == text[p..];
      StepTerm(stack0, s, |term|, AfterSlashes(text[p..]));
      DirsMore(stack0, term);
      p := EatSlashes(buf, text, p);
    }
  }

  /** `duk__resolve_module_id`: output is written over input, by two pointers into the same buffer. */
  method ResolveModuleId(req: string, base: Base) returns (answer: Answer)
    requires CString(req) && (base.Base? ==> CString(base.id))
    ensures answer == Resolve(req, base)
  {
    hide Terms, Walk, Dirs, Term, AfterSlashes, Ordinary, Join;
    var text := Input(req, base);
    WalkEndsInTerm([], Terms(text));
    if |text| >= LIMIT {
      return CannotResolve;
    }
    var buf := new char[LIMIT](i => if 0 <= i < |text| then text[i] else NUL);
    var p: nat, q: nat := 0, 0;
    ghost var stack: seq<string> := [];
    assert text[0..] == text;
    DirsNil();
    while buf[p] != NUL
      invariant AtTerm(buf, text, p, q, stack)
      decreases |text| - p
    {
      var qLast := q;
      if buf[p] == '.' {
        var ok;
        ok, p, q, stack := ReadDots(buf, text, p, q, stack);
        if !ok {
          return CannotResolve;
        }
      } else if buf[p] == '/' {
        TermStarts(text[p..]);
        BadTerm(stack, text[p..]);
        return CannotResolve;
      } else {
        var last;
        last, p, q, stack := ReadTerm(buf, text, p, q, stack);
        if last {
          return Answer(buf[..q], buf[qLast..q]);
        }
      }
    }
    TextEnds(text, p, NUL);
    EmptyFails(stack);
    return CannotResolve;
  }

  lemma TermIsOrdinary(t: string)
    requires t != "" && t[0] != '.' && forall k :: 0 <= k < |t| ==> t[k] != '/'
    ensures Ordinary(t)
  {
  }

  lemma TermCopied(before: string, after: string, t: string)
    requires |after| == |before| + |t|
    requires forall k :: 0 <= k < |before| ==> after[k] == before[k]
    requires forall k :: 0 <= k < |t| ==> after[|before| + k] == t[k]
    ensures after == before + t
  {
  }

  lemma TermIsSuffix(after: string, before: string, term: string)
    requires after == before + term
    ensures after[|before|..] == term
  {
  }

  lemma TermAndSlash(text: string, start: nat, p: nat)
    requires start < p <= |text| && text[p - 1] == '/'
    ensures text[start..p] == text[start..p - 1] + "/"
    ensures text[start..] == text[start..p - 1] + "/" + text[p..]
  {
  }

  lemma AppendSlash(before: string, term: string)
    ensures before + (term + "/") == before + term + "/"
  {
  }

  lemma DirsMore(stack: seq<string>, t: string)
    ensures Dirs(stack + [t]) == Dirs(stack) + t + "/"
  {
    assert (stack + [t])[..|stack|] == stack;
  }

  lemma EmptyFails(stack: seq<string>)
    ensures Walk(stack, Terms("")) == Failed
  {
  }

  lemma DirsNil()
    ensures Dirs([]) == ""
  {
  }
}
