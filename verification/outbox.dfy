/**
 * EmailTestService and its query set: filters over the mail package's
 * `outbox` list, and accessors with their error conditions.
 */
module Outbox {
  import opened Wrappers
  import opened Errors
  import opened Mail

  const NoParameters := "EmailTestService.filter called without parameters"
  const NotQueried := "Counting of matches called without previous query. Please call filter() or all() first."
  const Ambiguous := "Current lookup has more than one email object and is thus ambiguous."
  const NoMatch := "Current lookup has zero matches so lookup does not make sense."

  /** A compiled regular expression: its source text and flags. */
  datatype Regex = Regex(source: string, flags: int)

  /** The regular-expression engine's `re.search(pattern, text)`, left abstract. */
  type Engine = (Regex, string) -> bool

  /** The `subject` argument of `filter`: a plain string, or an already compiled pattern. */
  datatype SubjectArg = Plain(text: string) | Compiled(pattern: Regex)

  /** The four keyword arguments of `filter`. */
  datatype Criteria = Criteria(to: Option<string>, cc: Option<string>, bcc: Option<string>, subject: Option<SubjectArg>)

  /** Whether a subject argument is truthy: a non-empty string or any compiled pattern. */
  predicate SubjectGiven(s: Option<SubjectArg>)
  {
    s.Some? && (s.value.Compiled? || s.value.text != "")
  }

  /** `any([to, cc, bcc, subject])`: without a truthy criterion every email would match. */
  predicate AnyCriterion(c: Criteria): (r: bool)
    ensures !r ==> forall m, engine :: Matches(m, c, engine)
  {
    Truthy(c.to) || Truthy(c.cc) || Truthy(c.bcc) || SubjectGiven(c.subject)
  }

  /** Where `$` (without MULTILINE) matches: at the end of the text or just before a final newline. */
  predicate EndAnchorAt(text: string, j: nat)
  {
    j == |text| || (j + 1 == |text| && text[j] == '\n')
  }

  /**
   * `re.search('^' + re.escape(literal) + '$', text)`: `^` lets the search
   * succeed only at position 0, where the escaped literal must match itself,
   * followed by a place where `$` holds.
   */
  predicate AnchoredLiteralSearch(literal: string, text: string)
  {
    |literal| <= |text| && text[..|literal|] == literal && EndAnchorAt(text, |literal|)
  }

  /** A plain subject matches the identical subject, and that subject followed by one newline, and nothing else. */
  lemma AnchoredLiteralSearchIff(literal: string, text: string)
    ensures AnchoredLiteralSearch(literal, text) <==> text == literal || text == literal + "\n"
  {
    if AnchoredLiteralSearch(literal, text) && |text| != |literal| {
      assert text == text[..|literal|] + [text[|literal|]];
    }
    if text == literal + "\n" {
      assert text[..|literal|] == literal;
    }
  }

  /** A plain subject matches a subject that does not end in a newline only when the two are identical. */
  lemma PlainSubjectExact(literal: string, text: string)
    requires text == [] || text[|text| - 1] != '\n'
    ensures AnchoredLiteralSearch(literal, text) <==> text == literal
  {
    AnchoredLiteralSearchIff(literal, text);
  }

  predicate SubjectMatches(s: SubjectArg, text: string, engine: Engine)
  {
    match s
    case Plain(literal) => AnchoredLiteralSearch(literal, text)
    case Compiled(p) => engine(p, text)
  }

  /**
   * An email satisfies every criterion that was supplied; the others impose
   * nothing. A plain subject selects the identical subject, or that subject
   * followed by one newline.
   */
  predicate Matches(m: Message, c: Criteria, engine: Engine): (r: bool)
    ensures r && Truthy(c.to) ==> c.to.value in m.to
    ensures r && Truthy(c.cc) ==> c.cc.value in m.cc
    ensures r && Truthy(c.bcc) ==> c.bcc.value in m.bcc
    ensures SubjectGiven(c.subject) && c.subject.value.Plain? && r ==>
              PyStr(m.subject) == c.subject.value.text || PyStr(m.subject) == c.subject.value.text + "\n"
  {
    && (Truthy(c.to) ==> c.to.value in m.to)
    && (Truthy(c.cc) ==> c.cc.value in m.cc)
    && (Truthy(c.bcc) ==> c.bcc.value in m.bcc)
    && (SubjectGiven(c.subject) ==> SubjectMatches(c.subject.value, PyStr(m.subject), engine))
  }

  /** The emails of `s` that satisfy `c`, in the order of `s`. */
  function Matching(s: seq<Message>, c: Criteria, engine: Engine): (r: seq<Message>)
    ensures |r| <= |s|
  {
    if s == [] then []
    else (if Matches(s[0], c, engine) then [s[0]] else []) + Matching(s[1..], c, engine)
  }

  /** Filtering distributes over concatenation: order is kept, and emails appended later land at the end. */
  lemma {:induction false} MatchingConcat(a: seq<Message>, b: seq<Message>, c: Criteria, engine: Engine)
    ensures Matching(a + b, c, engine) == Matching(a, c, engine) + Matching(b, c, engine)
  {
    if a == [] {
      assert a + b == b;
    } else {
      assert (a + b)[0] == a[0];
      assert (a + b)[1..] == a[1..] + b;
      MatchingConcat(a[1..], b, c, engine);
    }
  }

  /** An email is in the result exactly when it is in the outbox and satisfies every supplied criterion. */
  lemma {:induction false} MatchingMembers(s: seq<Message>, c: Criteria, engine: Engine, m: Message)
    ensures m in Matching(s, c, engine) <==> m in s && Matches(m, c, engine)
  {
    if s != [] {
      MatchingMembers(s[1..], c, engine, m);
      assert s == [s[0]] + s[1..];
    }
  }

  /** `c2` supplies every criterion `c1` supplies, with the same value, and possibly more. */
  predicate Narrower(c2: Criteria, c1: Criteria)
  {
    && (Truthy(c1.to) ==> c2.to == c1.to)
    && (Truthy(c1.cc) ==> c2.cc == c1.cc)
    && (Truthy(c1.bcc) ==> c2.bcc == c1.bcc)
    && (SubjectGiven(c1.subject) ==> c2.subject == c1.subject)
  }

  /**
   * Adding criteria never enlarges the result: filtering with the narrower
   * criteria is filtering the wider result again, so it is an order-kept
   * part of it.
   */
  lemma {:induction false} MatchingNarrower(s: seq<Message>, c1: Criteria, c2: Criteria, engine: Engine)
    requires Narrower(c2, c1)
    ensures Matching(Matching(s, c1, engine), c2, engine) == Matching(s, c2, engine)
    ensures |Matching(s, c2, engine)| <= |Matching(s, c1, engine)|
  {
    if s != [] {
      MatchingNarrower(s[1..], c1, c2, engine);
      var rest := Matching(s[1..], c1, engine);
      if Matches(s[0], c1, engine) {
        assert Matching(s, c1, engine) == [s[0]] + rest;
        assert ([s[0]] + rest)[0] == s[0];
        assert ([s[0]] + rest)[1..] == rest;
        assert Matching([s[0]] + rest, c2, engine)
               == (if Matches(s[0], c2, engine) then [s[0]] else []) + Matching(rest, c2, engine);
      } else {
        assert !Matches(s[0], c2, engine);
        assert Matching(s, c1, engine) == rest;
        assert Matching(s, c2, engine) == Matching(s[1..], c2, engine);
      }
    }
  }

  /** An email's HTML part: the content of its first alternative, if any. */
  function HtmlPart(m: Message): (r: Option<string>)
    ensures r.Some? <==> |m.alternatives| > 0
    ensures r.Some? ==> r.value == m.alternatives[0].content
  {
    if |m.alternatives| > 0 then Some(m.alternatives[0].content) else None
  }

  predicate OccursAt(haystack: string, needle: string, i: nat)
  {
    i + |needle| <= |haystack| && haystack[i..i + |needle|] == needle
  }

  /** Python's `needle in haystack` on strings. */
  predicate Contains(haystack: string, needle: string)
  {
    exists i: nat :: i <= |haystack| && OccursAt(haystack, needle, i)
  }

  /** `EmailTestServiceMail.assert_body_contains`: whether the assertions pass. */
  function AssertBodyContains(m: Message, needle: string): (passes: bool)
    ensures passes <==> Contains(m.body, needle) && (|m.alternatives| == 0 || Contains(m.alternatives[0].content, needle))
  {
    var html := HtmlPart(m);
    Contains(m.body, needle) && (html.None? || Contains(html.value, needle))
  }

  /** EmailTestServiceQuerySet: a match list, or None when no query produced it. */
  datatype QuerySet = QuerySet(matchList: Option<seq<Message>>)
  {
    /** `_ensure_matching_list_was_populated`. */
    function EnsurePopulated(): (r: Outcome<()>)
      ensures r.Returned? <==> matchList.Some?
      ensures r.Raised? ==> r.exception == RuntimeError(NotQueried)
    {
      if matchList.None? then Raised(RuntimeError(NotQueried)) else Returned(())
    }

    /** `count`. */
    function Count(): (r: Outcome<nat>)
      ensures r.Returned? <==> matchList.Some?
      ensures r.Returned? ==> r.value == |matchList.value|
      ensures r.Raised? ==> r.exception == RuntimeError(NotQueried)
    {
      match EnsurePopulated()
      case Raised(e) => Raised(e)
      case Returned(_) => Returned(|matchList.value|)
    }

    /** `one`: whether the query found exactly one email. */
    function One(): (r: Outcome<bool>)
      ensures r.Returned? <==> matchList.Some?
      ensures r.Returned? ==> (r.value <==> |matchList.value| == 1)
      ensures r.Raised? ==> r.exception == RuntimeError(NotQueried)
    {
      match Count()
      case Raised(e) => Raised(e)
      case Returned(n) => Returned(n == 1)
    }

    /** `first`: the first email, or None (Python's False) when there is none. */
    function First(): (r: Outcome<Option<Message>>)
      ensures r.Returned? <==> matchList.Some?
      ensures r.Raised? ==> r.exception == RuntimeError(NotQueried)
      ensures r.Returned? ==> (r.value.Some? <==> |matchList.value| > 0)
      ensures r.Returned? && r.value.Some? ==> r.value.value == matchList.value[0]
    {
      match EnsurePopulated()
      case Raised(e) => Raised(e)
      case Returned(_) =>
        match Count()
        case Raised(e) => Raised(e)
        case Returned(n) => Returned(if n > 0 then Some(matchList.value[0]) else None)
    }

    /** `last`: the last email, or None (Python's False) when there is none. */
    function Last(): (r: Outcome<Option<Message>>)
      ensures r.Returned? <==> matchList.Some?
      ensures r.Raised? ==> r.exception == RuntimeError(NotQueried)
      ensures r.Returned? ==> (r.value.Some? <==> |matchList.value| > 0)
      ensures r.Returned? && r.value.Some? ==> r.value.value == matchList.value[|matchList.value| - 1]
    {
      match EnsurePopulated()
      case Raised(e) => Raised(e)
      case Returned(_) =>
        match Count()
        case Raised(e) => Raised(e)
        case Returned(n) => Returned(if n > 0 then Some(matchList.value[n - 1]) else None)
    }

    /** `_validate_lookup_cache_contains_one_element`: returns normally iff exactly one email matched. */
    function ValidateSingle(): (r: Outcome<()>)
      ensures r.Returned? <==> Count() == Returned(1)
      ensures matchList.None? ==> r == Raised(RuntimeError(NotQueried))
      ensures matchList.Some? && |matchList.value| > 1 ==> r == Raised(RuntimeError(Ambiguous))
      ensures matchList.Some? && |matchList.value| == 0 ==> r == Raised(RuntimeError(NoMatch))
    {
      match Count()
      case Raised(e) => Raised(e)
      case Returned(n) =>
        if n > 1 then Raised(RuntimeError(Ambiguous))
        else if n == 0 then Raised(RuntimeError(NoMatch))
        else Returned(())
    }

    /** `_get_html_content`: the single match's HTML part. */
    function HtmlContent(): (r: Outcome<Option<string>>)
      ensures r.Returned? <==> Count() == Returned(1)
      ensures r.Raised? ==> ValidateSingle() == Raised(r.exception)
      ensures r.Returned? ==> r.value == HtmlPart(matchList.value[0])
    {
      match ValidateSingle()
      case Raised(e) => Raised(e)
      case Returned(_) => Returned(HtmlPart(matchList.value[0]))
    }

    /** `_get_txt_content`: the single match's plain-text body. */
    function TxtContent(): (r: Outcome<string>)
      ensures r.Returned? <==> Count() == Returned(1)
      ensures r.Raised? ==> ValidateSingle() == Raised(r.exception)
      ensures r.Returned? ==> r.value == matchList.value[0].body
    {
      match ValidateSingle()
      case Raised(e) => Raised(e)
      case Returned(_) => Returned(matchList.value[0].body)
    }
  }

  /** `first()` on a filter result is the earliest email of the outbox that satisfies the criteria. */
  lemma {:induction false} FirstIsEarliestMatch(s: seq<Message>, c: Criteria, engine: Engine)
    requires exists j :: 0 <= j < |s| && Matches(s[j], c, engine)
    ensures exists k :: 0 <= k < |s| && Matches(s[k], c, engine)
                        && (forall j :: 0 <= j < k ==> !Matches(s[j], c, engine))
                        && QuerySet(Some(Matching(s, c, engine))).First() == Returned(Some(s[k]))
  {
    if Matches(s[0], c, engine) {
      assert Matching(s, c, engine)[0] == s[0];
    } else {
      var j :| 0 <= j < |s| && Matches(s[j], c, engine);
      assert s[1..][j - 1] == s[j];
      FirstIsEarliestMatch(s[1..], c, engine);
      var k :| 0 <= k < |s[1..]| && Matches(s[1..][k], c, engine)
               && (forall i :: 0 <= i < k ==> !Matches(s[1..][i], c, engine))
               && QuerySet(Some(Matching(s[1..], c, engine))).First() == Returned(Some(s[1..][k]));
      assert Matching(s, c, engine) == Matching(s[1..], c, engine);
      forall i | 0 <= i < k + 1 ensures !Matches(s[i], c, engine) {
        if i > 0 {
          assert s[i] == s[1..][i - 1];
        }
      }
      assert s[k + 1] == s[1..][k];
    }
  }

  /** Filtering `init + [last]` appends `last` to the filtered `init` exactly when `last` matches. */
  lemma MatchingSnoc(init: seq<Message>, last: Message, c: Criteria, engine: Engine)
    ensures Matching(init + [last], c, engine)
            == Matching(init, c, engine) + (if Matches(last, c, engine) then [last] else [])
  {
    MatchingConcat(init, [last], c, engine);
    assert [last][1..] == [];
  }

  /** `last()` on a filter result is the latest email of the outbox that satisfies the criteria. */
  lemma {:induction false} LastIsLatestMatch(s: seq<Message>, c: Criteria, engine: Engine)
    requires exists j :: 0 <= j < |s| && Matches(s[j], c, engine)
    ensures exists k :: 0 <= k < |s| && Matches(s[k], c, engine)
                        && (forall j :: k < j < |s| ==> !Matches(s[j], c, engine))
                        && QuerySet(Some(Matching(s, c, engine))).Last() == Returned(Some(s[k]))
  {
    var n := |s| - 1;
    var init := s[..n];
    assert s == init + [s[n]];
    MatchingSnoc(init, s[n], c, engine);
    var m := Matching(s, c, engine);
    if Matches(s[n], c, engine) {
      assert m[|m| - 1] == s[n];
      assert QuerySet(Some(m)).Last() == Returned(Some(s[n]));
    } else {
      var j :| 0 <= j < |s| && Matches(s[j], c, engine);
      assert init[j] == s[j];
      LastIsLatestMatch(init, c, engine);
      var k :| 0 <= k < |init| && Matches(init[k], c, engine)
               && (forall i :: k < i < |init| ==> !Matches(init[i], c, engine))
               && QuerySet(Some(Matching(init, c, engine))).Last() == Returned(Some(init[k]));
      assert m == Matching(init, c, engine);
      forall i | k < i < |s| ensures !Matches(s[i], c, engine) {
        if i < n {
          assert s[i] == init[i];
        }
      }
      assert s[k] == init[k];
      assert QuerySet(Some(m)).Last() == Returned(Some(s[k]));
    }
  }

  /** EmailTestService: a view of the mail package's outbox. */
  class EmailTestService {
    const mail: MailModule
    /** `_outbox`: null until loaded, then the very list `mail.outbox` referred to at the last reload. */
    var cache: MailList?

    constructor (mail: MailModule)
      ensures this.mail == mail && cache == null
    {
      this.mail := mail;
      cache := null;
    }

    /** `reload`: point the cache at the current outbox list. */
    method Reload()
      modifies this`cache
      ensures cache == mail.outbox
    {
      cache := mail.outbox;
    }

    /** `empty`: replace the shared outbox by a new empty list and reload. */
    method Empty()
      modifies this`cache, mail`outbox
      ensures fresh(mail.outbox) && mail.outbox.items == []
      ensures cache == mail.outbox
    {
      mail.outbox := new MailList([]);
      Reload();
    }

    /** `_ensure_outbox_is_loaded`: reload only when nothing is cached. */
    method EnsureOutboxIsLoaded()
      modifies this`cache
      ensures old(cache) == null ==> cache == mail.outbox
      ensures old(cache) != null ==> cache == old(cache)
    {
      if cache == null {
        Reload();
      }
    }

    /**
     * `filter`: reloads, refuses a call without any criterion, and otherwise
     * keeps, in outbox order, the emails that satisfy every supplied criterion.
     */
    method Filter(to: Option<string>, cc: Option<string>, bcc: Option<string>, subject: Option<SubjectArg>,
                  engine: Engine) returns (r: Outcome<QuerySet>)
      modifies this`cache
      ensures cache == mail.outbox
      ensures !AnyCriterion(Criteria(to, cc, bcc, subject)) ==> r == Raised(ValueError(NoParameters))
      ensures AnyCriterion(Criteria(to, cc, bcc, subject)) ==>
                r == Returned(QuerySet(Some(Matching(mail.outbox.items, Criteria(to, cc, bcc, subject), engine))))
    {
      Reload();
      var criteria := Criteria(to, cc, bcc, subject);
      if !AnyCriterion(criteria) {
        return Raised(ValueError(NoParameters));
      }
      var emails := cache.items;
      var matchList: seq<Message> := [];
      var i := 0;
      while i < |emails|
        invariant 0 <= i <= |emails|
        invariant matchList == Matching(emails[..i], criteria, engine)
        invariant cache == mail.outbox
      {
        var email := emails[i];
        var matched := true;
        if Truthy(to) && to.value !in email.to {
          matched := false;
        }
        if Truthy(cc) && cc.value !in email.cc {
          matched := false;
        }
        if Truthy(bcc) && bcc.value !in email.bcc {
          matched := false;
        }
        if SubjectGiven(subject) && !SubjectMatches(subject.value, PyStr(email.subject), engine) {
          matched := false;
        }
        assert emails[..i + 1] == emails[..i] + [email];
        MatchingConcat(emails[..i], [email], criteria, engine);
        assert Matching([email], criteria, engine) == (if matched then [email] else []) + Matching([], criteria, engine);
        if matched {
          matchList := matchList + [email];
        }
        i := i + 1;
      }
      assert emails[..i] == emails;
      return Returned(QuerySet(Some(matchList)));
    }

    /** `all`: reloads and copies every outbox email, in order. */
    method All() returns (qs: QuerySet)
      modifies this`cache
      ensures cache == mail.outbox
      ensures qs == QuerySet(Some(mail.outbox.items))
    {
      Reload();
      var emails := cache.items;
      var matchList: seq<Message> := [];
      for i := 0 to |emails|
        invariant matchList == emails[..i]
      {
        matchList := matchList + [emails[i]];
      }
      assert emails[..|emails|] == emails;
      qs := QuerySet(Some(matchList));
    }
  }
}
