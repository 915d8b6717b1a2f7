/** What the prompt templates promise: which calls fail, which roles the
    chat prefixes carry and in what order, that query and top_k are embedded
    verbatim (and can be read back), which example ordering is chosen, and
    which inputs each template ignores. Every lemma holds for any wording of
    the fixed sentences, so in particular for `SourceWording`, that is, for
    `Prefix` and `Suffix`. */
module PromptProperties {
  import opened Wrappers
  import opened Decimal
  import opened Templates
  import opened Prompt

  lemma RankGptOsPrefix(w: Wording, args: seq<Value>, kwargs: Kwargs)
    requires |args| >= 2 && Flag(kwargs, IsOsLlm)
    ensures PrefixWith(w, RankGpt, args, kwargs).Ok? && PrefixWith(w, RankGpt, args, kwargs).value.Text?
    ensures var t := PrefixWith(w, RankGpt, args, kwargs).value.text;
      Contains(t, Format(args[0])) && Contains(t, Format(args[1])) && Contains(t, Format(args[1]) + Passages)
    ensures args[1].Int? ==>
      ReadCountThenQuery(PrefixWith(w, RankGpt, args, kwargs).value.text, PrefixHead, OsPrefixMid(w), OsPrefixTail)
        == Some((args[1].i, Format(args[0])))
  {
    CountWordAndQuery(PrefixHead, Format(args[1]), Passages, w.osPrefixInstruction, Format(args[0]), OsPrefixTail);
    if args[1].Int? {
      CountThenQueryRoundTrip(PrefixHead, args[1].i, OsPrefixMid(w), Format(args[0]), OsPrefixTail);
    }
  }

  lemma RankGptChatPrefix(w: Wording, args: seq<Value>, kwargs: Kwargs)
    requires |args| >= 2 && !Flag(kwargs, IsOsLlm)
    ensures PrefixWith(w, RankGpt, args, kwargs).Ok? && PrefixWith(w, RankGpt, args, kwargs).value.Messages?
    ensures var ms := PrefixWith(w, RankGpt, args, kwargs).value.messages;
      |ms| == 3 && ms[0].role == System && ms[1].role == User && ms[2].role == Assistant
    ensures var ms := PrefixWith(w, RankGpt, args, kwargs).value.messages;
      ms[0].content == w.rankGptSystem && ms[2].content == w.rankGptAssistant &&
      Contains(ms[1].content, Format(args[0])) && Contains(ms[1].content, Format(args[1])) &&
      Contains(ms[1].content, Format(args[1]) + Passages)
    ensures var ms := PrefixWith(w, RankGpt, args, kwargs).value.messages;
      args[1].Int? ==>
        ReadCountThenQuery(ms[1].content, PrefixHead, ChatUserMid(w), ChatUserTail)
          == Some((args[1].i, Format(args[0])))
  {
    CountWordAndQuery(PrefixHead, Format(args[1]), Passages, w.chatUserInstruction, Format(args[0]), ChatUserTail);
    if args[1].Int? {
      CountThenQueryRoundTrip(PrefixHead, args[1].i, ChatUserMid(w), Format(args[0]), ChatUserTail);
    }
  }

  lemma RankGptApeerPrefix(w: Wording, args: seq<Value>, kwargs: Kwargs)
    requires |args| >= 2
    ensures PrefixWith(w, RankGptApeer, args, kwargs).Ok? && PrefixWith(w, RankGptApeer, args, kwargs).value.Messages?
    ensures var ms := PrefixWith(w, RankGptApeer, args, kwargs).value.messages;
      |ms| == 2 && ms[0] == Message(System, w.apeerSystem) && ms[1].role == User
    ensures var ms := PrefixWith(w, RankGptApeer, args, kwargs).value.messages;
      Contains(ms[1].content, QueryStart + Format(args[0]) + QueryEnd) &&
      StripAround(ms[1].content, ApeerUserHead(w), ApeerUserTail(w)) == Some(Format(args[0]))
  {
    var q := Format(args[0]);
    MarkedField(w.apeerUserIntro, QueryStart, q, QueryEnd, w.apeerUserRest);
    StripAroundRoundTrip(ApeerUserHead(w), q, ApeerUserTail(w));
  }

  lemma RankGptOsSuffix(w: Wording, args: seq<Value>, kwargs: Kwargs)
    requires |args| >= 2 && Flag(kwargs, IsOsLlm)
    ensures SuffixWith(w, RankGpt, args, kwargs).Ok?
    ensures var t := SuffixWith(w, RankGpt, args, kwargs).value;
      Contains(t, Format(args[0])) && Contains(t, Format(args[1])) && Contains(t, NoExplanation)
    ensures var t := SuffixWith(w, RankGpt, args, kwargs).value;
      (Flag(kwargs, VariablePassages) ==> Contains(t, "[2] > [1]")) &&
      (!Flag(kwargs, VariablePassages) ==> Contains(t, "[4] > [2]"))
  {
    var q, k := Format(args[0]), Format(args[1]);
    var example := ExampleOrdering(Flag(kwargs, VariablePassages));
    var t := SuffixHead + q + OsSuffixMid + k + OsSuffixBody(w) + example + OsSuffixEnd(w);
    FieldsOf7(SuffixHead, q, OsSuffixMid, k, OsSuffixBody(w), example, OsSuffixEnd(w));
    assert Contains(OsSuffixEnd(w), NoExplanation) by {
      PiecesOf3([], w.osSuffixClose, NoExplanation);
      assert [] + w.osSuffixClose + NoExplanation == OsSuffixEnd(w);
    }
    ContainsTransitive(t, OsSuffixEnd(w), NoExplanation);
  }

  /** The query and an integer top_k are read back from the open-source LLM suffix. */
  lemma RankGptOsSuffixReadBack(w: Wording, args: seq<Value>, kwargs: Kwargs)
    requires |args| >= 2 && Flag(kwargs, IsOsLlm) && args[1].Int?
    ensures SuffixWith(w, RankGpt, args, kwargs).Ok?
    ensures var rest := OsSuffixBody(w) + ExampleOrdering(Flag(kwargs, VariablePassages)) + OsSuffixEnd(w);
      ReadQueryThenCount(SuffixWith(w, RankGpt, args, kwargs).value, SuffixHead, OsSuffixMid, rest)
        == Some((Format(args[0]), args[1].i))
  {
    var q, k := Format(args[0]), Format(args[1]);
    var rest := OsSuffixBody(w) + ExampleOrdering(Flag(kwargs, VariablePassages)) + OsSuffixEnd(w);
    assert SuffixHead + q + OsSuffixMid + k + rest == SuffixWith(w, RankGpt, args, kwargs).value;
    QueryThenCountRoundTrip(SuffixHead, q, OsSuffixMid, args[1].i, rest);
  }

  lemma RankGptChatSuffix(w: Wording, args: seq<Value>, kwargs: Kwargs, variablePassages: bool)
    requires |args| >= 2 && !Flag(kwargs, IsOsLlm)
    ensures SuffixWith(w, RankGpt, args, kwargs).Ok?
    ensures var t := SuffixWith(w, RankGpt, args, kwargs).value;
      Contains(t, Format(args[0])) && Contains(t, Format(args[1])) &&
      Contains(t, "[1] > [2]") && Contains(t, NoExplanation)
    ensures var t := SuffixWith(w, RankGpt, args, kwargs).value;
      args[1].Int? ==>
        ReadQueryThenCount(t, SuffixHead, ChatSuffixMid, ChatSuffixTail(w)) == Some((Format(args[0]), args[1].i))
    ensures SuffixWith(w, RankGpt, args, kwargs[VariablePassages := variablePassages])
      == SuffixWith(w, RankGpt, args, kwargs)
  {
    var q, k := Format(args[0]), Format(args[1]);
    var t := SuffixHead + q + ChatSuffixMid + k + ChatSuffixTail(w);
    FieldsOf5(SuffixHead, q, ChatSuffixMid, k, ChatSuffixTail(w));
    PiecesOf3(SuffixHead + q + ChatSuffixMid + k, ChatSuffixTail(w), []);
    assert t + [] == t;
    PiecesOf4(ChatSuffixBody(w), ChatExample, w.chatSuffixClose, NoExplanation);
    ContainsTransitive(t, ChatSuffixTail(w), ChatExample);
    ContainsTransitive(t, ChatSuffixTail(w), NoExplanation);
    if args[1].Int? {
      QueryThenCountRoundTrip(SuffixHead, q, ChatSuffixMid, args[1].i, ChatSuffixTail(w));
    }
    assert Flag(kwargs[VariablePassages := variablePassages], IsOsLlm) == Flag(kwargs, IsOsLlm);
  }

  lemma RankGptApeerSuffix(w: Wording, args: seq<Value>, kwargs: Kwargs)
    requires |args| >= 2
    ensures SuffixWith(w, RankGptApeer, args, kwargs).Ok?
    ensures var t := SuffixWith(w, RankGptApeer, args, kwargs).value;
      Contains(t, QueryStart + Format(args[0]) + QueryEnd) && Contains(t, ApeerRankFormat(w)) &&
      StripAround(t, ApeerSuffixHead(w), ApeerSuffixTail(w)) == Some(Format(args[0]))
  {
    var q := Format(args[0]);
    var t := ApeerSuffixHead(w) + q + ApeerSuffixTail(w);
    MarkedField(w.apeerSuffixIntro, QueryStart, q, QueryEnd, ApeerSuffixRest(w));
    PiecesOf3(w.apeerSuffixFormat, ApeerRankFormat(w), w.apeerSuffixClose);
    ContainsTransitive(t, ApeerSuffixRest(w), ApeerRankFormat(w));
    StripAroundRoundTrip(ApeerSuffixHead(w), q, ApeerSuffixTail(w));
  }

  /** RANK_GPT_APEER reads only the query: top_k, extra arguments and flags change nothing. */
  lemma RankGptApeerIgnoresTopKAndFlags(w: Wording, args: seq<Value>, args': seq<Value>, kwargs: Kwargs, kwargs': Kwargs)
    requires |args| >= 2 && |args'| >= 2 && Format(args[0]) == Format(args'[0])
    ensures PrefixWith(w, RankGptApeer, args, kwargs) == PrefixWith(w, RankGptApeer, args', kwargs')
    ensures SuffixWith(w, RankGptApeer, args, kwargs) == SuffixWith(w, RankGptApeer, args', kwargs')
  {
  }

  /** `variable_passages` never changes a prefix, and on the open-source
      RANK_GPT suffix the two settings differ only in the worked example. */
  lemma VariablePassagesOnlyChangesOsExample(w: Wording, m: Mode, args: seq<Value>, kwargs: Kwargs, b: bool)
    ensures PrefixWith(w, m, args, kwargs[VariablePassages := b]) == PrefixWith(w, m, args, kwargs)
    ensures |args| >= 2 && Flag(kwargs, IsOsLlm) ==>
      exists a, c ::
        SuffixWith(w, RankGpt, args, kwargs[VariablePassages := true]) == Ok(a + "[2] > [1]" + c) &&
        SuffixWith(w, RankGpt, args, kwargs[VariablePassages := false]) == Ok(a + "[4] > [2]" + c)
  {
    assert Flag(kwargs[VariablePassages := b], IsOsLlm) == Flag(kwargs, IsOsLlm);
    if |args| >= 2 && Flag(kwargs, IsOsLlm) {
      var a := SuffixHead + Format(args[0]) + OsSuffixMid + Format(args[1]) + OsSuffixBody(w);
      var c := OsSuffixEnd(w);
      assert Flag(kwargs[VariablePassages := true], IsOsLlm) && Flag(kwargs[VariablePassages := false], IsOsLlm);
      assert SuffixWith(w, RankGpt, args, kwargs[VariablePassages := true]) == Ok(a + "[2] > [1]" + c);
      assert SuffixWith(w, RankGpt, args, kwargs[VariablePassages := false]) == Ok(a + "[4] > [2]" + c);
    }
  }

  /** Of the keyword arguments only the two flags matter. */
  lemma OnlyFlagsMatter(w: Wording, m: Mode, args: seq<Value>, kwargs: Kwargs, kwargs': Kwargs)
    requires Flag(kwargs, IsOsLlm) == Flag(kwargs', IsOsLlm)
    requires Flag(kwargs, VariablePassages) == Flag(kwargs', VariablePassages)
    ensures PrefixWith(w, m, args, kwargs) == PrefixWith(w, m, args, kwargs')
    ensures SuffixWith(w, m, args, kwargs) == SuffixWith(w, m, args, kwargs')
  {
  }

  /** An omitted flag reads as `False`. */
  lemma OmittedFlagsAreFalse(w: Wording, m: Mode, args: seq<Value>)
    ensures PrefixWith(w, m, args, map[]) == PrefixWith(w, m, args, map[IsOsLlm := false, VariablePassages := false])
    ensures SuffixWith(w, m, args, map[]) == SuffixWith(w, m, args, map[IsOsLlm := false, VariablePassages := false])
  {
    OnlyFlagsMatter(w, m, args, map[], map[IsOsLlm := false, VariablePassages := false]);
  }

  /** Only the first two positional arguments are read. */
  lemma ExtraArgumentsIgnored(w: Wording, m: Mode, args: seq<Value>, kwargs: Kwargs)
    requires |args| >= 2
    ensures PrefixWith(w, m, args, kwargs) == PrefixWith(w, m, args[..2], kwargs)
    ensures SuffixWith(w, m, args, kwargs) == SuffixWith(w, m, args[..2], kwargs)
  {
  }

  /** The modes without templates fail in both calls, and the error names the
      mode by its value, from which the mode can be recovered. */
  lemma UnsupportedModesFail(w: Wording, m: Mode, args: seq<Value>, kwargs: Kwargs)
    requires |args| >= 2 && !HasTemplates(m)
    ensures m in {Unspecified, Lrl, MonoT5, LiT5}
    ensures PrefixWith(w, m, args, kwargs).Err? && SuffixWith(w, m, args, kwargs).Err?
    ensures StripAround(PrefixWith(w, m, args, kwargs).message, PrefixUnsupportedHead, UnsupportedTail) == Some(Name(m))
    ensures StripAround(SuffixWith(w, m, args, kwargs).message, SuffixUnsupportedHead, UnsupportedTail) == Some(Name(m))
    ensures FromName(Name(m)) == Some(m)
  {
    StripAroundRoundTrip(PrefixUnsupportedHead, Name(m), UnsupportedTail);
    StripAroundRoundTrip(SuffixUnsupportedHead, Name(m), UnsupportedTail);
  }

  /** Every call to a mode with templates, given a query and top_k, returns
      non-empty output. */
  lemma SupportedOutputsNonEmpty(w: Wording, m: Mode, args: seq<Value>, kwargs: Kwargs)
    requires |args| >= 2 && HasTemplates(m)
    ensures PrefixWith(w, m, args, kwargs).Ok? && SuffixWith(w, m, args, kwargs).Ok?
    ensures match PrefixWith(w, m, args, kwargs).value
      case Text(t) => |t| > 0
      case Messages(ms) => |ms| > 0
    ensures |SuffixWith(w, m, args, kwargs).value| > 0
  {
  }

  const CapitalQuery: string := "What is the capital of the United States?"

  lemma FourPassages()
    ensures IntToString(4) + Passages == "4 passages"
  {
    assert IntToString(4) == "4";
  }

  /** The chat variant on a concrete query with four passages. */
  lemma CapitalQueryChatScenario(w: Wording)
    ensures var p := PrefixWith(w, RankGpt, [Str(CapitalQuery), Int(4)], map[]);
      p.Ok? && p.value.Messages? && |p.value.messages| == 3 &&
      Contains(p.value.messages[1].content, "4 passages") &&
      Contains(p.value.messages[1].content, CapitalQuery)
    ensures var s := SuffixWith(w, RankGpt, [Str(CapitalQuery), Int(4)], map[]);
      s.Ok? && Contains(s.value, "[1] > [2]") && Contains(s.value, NoExplanation)
  {
    var args := [Str(CapitalQuery), Int(4)];
    RankGptChatPrefix(w, args, map[]);
    RankGptChatSuffix(w, args, map[], false);
    FourPassages();
  }

  /** The open-source LLM suffix on query "Q" with five passages, both orderings. */
  lemma OsSuffixScenario(w: Wording)
    ensures var s := SuffixWith(w, RankGpt, [Str("Q"), Int(5)], map[IsOsLlm := true, VariablePassages := true]);
      s.Ok? && Contains(s.value, "[2] > [1]")
    ensures var s := SuffixWith(w, RankGpt, [Str("Q"), Int(5)], map[IsOsLlm := true]);
      s.Ok? && Contains(s.value, "[4] > [2]")
  {
    RankGptOsSuffix(w, [Str("Q"), Int(5)], map[IsOsLlm := true, VariablePassages := true]);
    RankGptOsSuffix(w, [Str("Q"), Int(5)], map[IsOsLlm := true]);
  }
}
