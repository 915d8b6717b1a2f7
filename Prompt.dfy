/** The prompt template selector of the listwise reranker: a closed set of
    prompt modes, each of which builds the text placed before (`Prefix`) and
    after (`Suffix`) the candidate passages handed to the LLM. */
module Prompt {
  import opened Wrappers
  import opened Decimal

  /** The members of the `Prompt` enum. */
  datatype Mode = Unspecified | RankGpt | RankGptApeer | Lrl | MonoT5 | LiT5

  /** `str(mode)`: the enum member's value. */
  function Name(m: Mode): string
  {
    match m
    case Unspecified => "unspecified"
    case RankGpt => "rank_GPT"
    case RankGptApeer => "rank_GPT_APEER"
    case Lrl => "LRL"
    case MonoT5 => "monot5"
    case LiT5 => "LiT5"
  }

  /** Enum lookup by value, `Prompt(s)`: the mode whose value is `s`. Where
      Python raises `ValueError` for a value no member has, this yields `None`. */
  function FromName(s: string): (r: Option<Mode>)
    ensures r.Some? ==> Name(r.value) == s
    ensures forall m: Mode :: Name(m) == s ==> r == Some(m)
  {
    if s == "unspecified" then Some(Unspecified)
    else if s == "rank_GPT" then Some(RankGpt)
    else if s == "rank_GPT_APEER" then Some(RankGptApeer)
    else if s == "LRL" then Some(Lrl)
    else if s == "monot5" then Some(MonoT5)
    else if s == "LiT5" then Some(LiT5)
    else None
  }

  /** A positional argument as the templates use it: text or an integer. */
  datatype Value = Str(s: string) | Int(i: int)

  /** f-string interpolation of a value: text verbatim, an integer in decimal. */
  function Format(v: Value): string
  {
    match v
    case Str(s) => s
    case Int(i) => IntToString(i)
  }

  /** Keyword arguments: the prompt code only ever reads boolean flags. */
  type Kwargs = map<string, bool>

  /** `kwargs.get(key, False)`. */
  function Flag(kwargs: Kwargs, key: string): bool
  {
    if key in kwargs then kwargs[key] else false
  }

  const IsOsLlm: string := "is_os_llm"
  const VariablePassages: string := "variable_passages"

  datatype Role = System | User | Assistant

  /** The text stored under a message's "role" key. */
  function RoleName(r: Role): string
  {
    match r
    case System => "system"
    case User => "user"
    case Assistant => "assistant"
  }

  /** A chat message, the dictionary `{"role": ..., "content": ...}`. */
  datatype Message = Message(role: Role, content: string)

  /** What `prefix` returns: one instruction string or a list of chat messages. */
  datatype PrefixOutput = Text(text: string) | Messages(messages: seq<Message>)

  const MissingArguments: string := "Missing query or top_k positional arguments"

  const PrefixUnsupportedHead: string := "Prefix for prompt mode "
  const SuffixUnsupportedHead: string := "Suffix for prompt mode "
  const UnsupportedTail: string := " is unsupported."

  function PrefixUnsupported(m: Mode): string
  {
    PrefixUnsupportedHead + Name(m) + UnsupportedTail
  }

  function SuffixUnsupported(m: Mode): string
  {
    SuffixUnsupportedHead + Name(m) + UnsupportedTail
  }

  /** The modes that have prefix and suffix templates. */
  predicate HasTemplates(m: Mode)
  {
    m == RankGpt || m == RankGptApeer
  }

  // The templates, cut at their interpolated fields. The short fragments that
  // give a template its structure are constants; the long fixed sentences
  // between them are fields of a `Wording`, and `SourceWording` holds the
  // sentences the prompt code uses.

  /** The word after top_k in every template that interpolates it. */
  const Passages: string := " passages"
  /** The opening of both RANK_GPT prefixes, before top_k. */
  const PrefixHead: string := "I will provide you with "
  /** The opening of both RANK_GPT suffixes, before the query. */
  const SuffixHead: string := "Search Query: "
  /** The markers around the query in both RANK_GPT_APEER templates. */
  const QueryStart: string := "[querystart] "
  const QueryEnd: string := " [queryend]"
  /** The output markers of the RANK_GPT_APEER suffix. */
  const RankStart: string := "[rankstart]"
  const RankEnd: string := "[rankend]"
  /** The worked example of the chat-variant RANK_GPT suffix. */
  const ChatExample: string := "[1] > [2]"
  /** The closing words of both RANK_GPT suffixes, which forbid commentary. */
  const NoExplanation: string := "do not say any word or explain."

  /** The fixed sentences between the fragments above. */
  datatype Wording = Wording(
    rankGptSystem: string,
    osPrefixInstruction: string,
    chatUserInstruction: string,
    rankGptAssistant: string,
    apeerSystem: string,
    apeerUserIntro: string,
    apeerUserRest: string,
    osSuffixInstruction: string,
    osSuffixClose: string,
    chatSuffixInstruction: string,
    chatSuffixClose: string,
    apeerSuffixIntro: string,
    apeerSuffixFormat: string,
    apeerRankBody: string,
    apeerSuffixClose: string)

  const SourceWording: Wording := Wording(
    rankGptSystem := "You are RankGPT, an intelligent assistant that can rank passages based on their relevancy to the query.",
    osPrefixInstruction := ", each indicated by a numerical identifier []. Rank the passages based on their relevance to the search query: ",
    chatUserInstruction := ", each indicated by number identifier []. \nRank the passages based on their relevance to query: ",
    rankGptAssistant := "Okay, please provide the passages.",
    apeerSystem := "As RankGPT, your task is to evaluate and rank unique passages based on their relevance and accuracy to a given query. Prioritize passages that directly address the query and provide detailed, correct answers. Ignore factors such as length, complexity, or writing style unless they seriously hinder readability.",
    apeerUserIntro := "In response to the query: ",
    apeerUserRest := ", rank the passages. Ignore aspects like length, complexity, or writing style, and concentrate on passages that provide a comprehensive understanding of the query. Take into account any inaccuracies or vagueness in the passages when determining their relevance.",
    osSuffixInstruction := " above based on their relevance to the search query. All the passages should be included and listed using identifiers, in descending order of relevance. The output format should be [] > [], e.g., ",
    osSuffixClose := ", Only respond with the ranking results, ",
    chatSuffixInstruction := " above based on their relevance to the search query. The passages should be listed in descending order using identifiers. The most relevant passages should be listed first. The output format should be [] > [], e.g., ",
    chatSuffixClose := ". Only response the ranking results, ",
    apeerSuffixIntro := "Given the query: ",
    apeerSuffixFormat := ", produce a succinct and clear ranking of all passages, from most to least relevant, using their identifiers. The format should be ",
    apeerRankBody := " [most relevant passage ID] > [next most relevant passage ID] > ... > [least relevant passage ID] ",
    apeerSuffixClose := ". Refrain from including any additional commentary or explanations in your ranking.")

  /** RANK_GPT prefix, open-source LLM variant: head, top_k, mid, query, ".\n". */
  const OsPrefixTail: string := ".\n"
  function OsPrefixMid(w: Wording): string { Passages + w.osPrefixInstruction }

  /** RANK_GPT prefix, chat variant, user turn: head, top_k, mid, query, ".". */
  const ChatUserTail: string := "."
  function ChatUserMid(w: Wording): string { Passages + w.chatUserInstruction }

  /** RANK_GPT_APEER prefix, user turn: head, query, tail. */
  function ApeerUserHead(w: Wording): string { w.apeerUserIntro + QueryStart }
  function ApeerUserTail(w: Wording): string { QueryEnd + w.apeerUserRest }

  /** RANK_GPT suffix, open-source LLM variant: head, query, mid, top_k, body,
      example ordering, end. */
  const OsSuffixMid: string := ".\nRank the "
  function OsSuffixBody(w: Wording): string { Passages + w.osSuffixInstruction }
  function OsSuffixEnd(w: Wording): string { w.osSuffixClose + NoExplanation }

  /** RANK_GPT suffix, chat variant: head, query, mid, top_k, tail. */
  const ChatSuffixMid: string := ". \nRank the "
  function ChatSuffixBody(w: Wording): string { Passages + w.chatSuffixInstruction }
  function ChatSuffixTail(w: Wording): string
  {
    ChatSuffixBody(w) + ChatExample + w.chatSuffixClose + NoExplanation
  }

  /** RANK_GPT_APEER suffix: head, query, tail. */
  function ApeerSuffixHead(w: Wording): string { w.apeerSuffixIntro + QueryStart }
  function ApeerRankFormat(w: Wording): string { RankStart + w.apeerRankBody + RankEnd }
  function ApeerSuffixRest(w: Wording): string
  {
    w.apeerSuffixFormat + ApeerRankFormat(w) + w.apeerSuffixClose
  }
  function ApeerSuffixTail(w: Wording): string { QueryEnd + ApeerSuffixRest(w) }

  /** The worked example of the open-source LLM suffix. */
  function ExampleOrdering(variablePassages: bool): string
  {
    if variablePassages then "[2] > [1]" else "[4] > [2]"
  }

  /** `Prompt.prefix(*args, **kwargs)` with the templates' fixed sentences
      taken from `w`: `args[0]` is the query, `args[1]` is top_k. */
  function PrefixWith(w: Wording, m: Mode, args: seq<Value>, kwargs: Kwargs): (r: Result<PrefixOutput>)
    ensures |args| < 2 ==> r == Err(MissingArguments)
    ensures |args| >= 2 && !HasTemplates(m) ==> r == Err(PrefixUnsupported(m))
    ensures r.Ok? <==> |args| >= 2 && HasTemplates(m)
  {
    if |args| < 2 then Err(MissingArguments)
    else
      var query, topK := Format(args[0]), Format(args[1]);
      match m
      case RankGpt =>
        if Flag(kwargs, IsOsLlm) then
          Ok(Text(PrefixHead + topK + OsPrefixMid(w) + query + OsPrefixTail))
        else
          Ok(Messages([
            Message(System, w.rankGptSystem),
            Message(User, PrefixHead + topK + ChatUserMid(w) + query + ChatUserTail),
            Message(Assistant, w.rankGptAssistant)]))
      case RankGptApeer =>
        Ok(Messages([
          Message(System, w.apeerSystem),
          Message(User, ApeerUserHead(w) + query + ApeerUserTail(w))]))
      case _ => Err(PrefixUnsupported(m))
  }

  /** `Prompt.suffix(*args, **kwargs)` with the templates' fixed sentences
      taken from `w`: `args[0]` is the query, `args[1]` is top_k. */
  function SuffixWith(w: Wording, m: Mode, args: seq<Value>, kwargs: Kwargs): (r: Result<string>)
    ensures |args| < 2 ==> r == Err(MissingArguments)
    ensures |args| >= 2 && !HasTemplates(m) ==> r == Err(SuffixUnsupported(m))
    ensures r.Ok? <==> |args| >= 2 && HasTemplates(m)
  {
    if |args| < 2 then Err(MissingArguments)
    else
      var query, topK := Format(args[0]), Format(args[1]);
      match m
      case RankGpt =>
        if Flag(kwargs, IsOsLlm) then
          var example := ExampleOrdering(Flag(kwargs, VariablePassages));
          Ok(SuffixHead + query + OsSuffixMid + topK + OsSuffixBody(w) + example + OsSuffixEnd(w))
        else
          Ok(SuffixHead + query + ChatSuffixMid + topK + ChatSuffixTail(w))
      case RankGptApeer =>
        Ok(ApeerSuffixHead(w) + query + ApeerSuffixTail(w))
      case _ => Err(SuffixUnsupported(m))
  }

  /** `Prompt.prefix` as the source defines it. */
  function Prefix(m: Mode, args: seq<Value>, kwargs: Kwargs): Result<PrefixOutput>
  {
    PrefixWith(SourceWording, m, args, kwargs)
  }

  /** `Prompt.suffix` as the source defines it. */
  function Suffix(m: Mode, args: seq<Value>, kwargs: Kwargs): Result<string>
  {
    SuffixWith(SourceWording, m, args, kwargs)
  }
}
