/** The chat assistant's conversation state: the keyword classifier that
    picks a service from a message, the blank-input guard and the sample
    quote of `sendMessage`, and the welcome-message resets. */
module Chat {
  import opened Types
  import opened SeqUtil
  import PrintCalculator

  datatype Language = Ja | En | Zh | Ko

  const WelcomeJa: string := "こんにちは！印刷、製本、物流、環境印刷に関するご質問やお見積もりのお手伝いをさせていただきます。お気軽にお問い合わせください。"
  const WelcomeEn: string := "Hello! I can help you with printing, binding, logistics, and eco-friendly printing services. Feel free to ask any questions or request a quote."
  const WelcomeZh: string := "您好！我可以帮助您解决印刷、装订、物流和环保印刷服务的问题。欢迎随时提问或索取报价。"
  const WelcomeKo: string := "안녕하세요! 인쇄, 제본, 물류 및 친환경 인쇄 서비스에 관한 문의나 견적에 도움을 드릴 수 있습니다. 언제든지 질문해 주세요."

  /** The greeting a conversation starts with, in each language; the four
      greetings are distinct, so the greeting tells the language. */
  function WelcomeMessage(lang: Language): (r: string)
    ensures r == WelcomeJa <==> lang == Ja
    ensures r == WelcomeEn <==> lang == En
    ensures r == WelcomeZh <==> lang == Zh
    ensures r == WelcomeKo <==> lang == Ko
  {
    assert |WelcomeJa| == 63 && |WelcomeEn| == 143 && |WelcomeZh| == 42 && |WelcomeKo| == 71;
    match lang
    case Ja => WelcomeJa
    case En => WelcomeEn
    case Zh => WelcomeZh
    case Ko => WelcomeKo
  }

  const PrintingKeywords: seq<string> := ["印刷", "名刺", "チラシ", "ポスター", "パンフレット"]
  const BindingKeywords: seq<string> := ["製本", "冊子", "書籍", "ハードカバー", "ソフトカバー", "綴じ"]
  const LogisticsKeywords: seq<string> := ["物流", "配送", "発送", "梱包", "保管", "輸送"]
  const EcoKeywords: seq<string> := ["環境", "エコ", "リサイクル", "再生紙", "fsc", "カーボン"]

  /** `detectServiceType`: the first keyword group, in the order printing,
      binding, logistics, eco-printing, with a keyword in the lower-cased
      message; printing when none has. */
  function DetectServiceType(message: string): (r: ServiceType)
    ensures r == Printing || r == Binding || r == Logistics || r == EcoPrinting
    ensures ContainsAny(ToLower(message), PrintingKeywords) ==> r == Printing
    ensures r == Binding <==>
              !ContainsAny(ToLower(message), PrintingKeywords) && ContainsAny(ToLower(message), BindingKeywords)
    ensures r == Logistics <==>
              !ContainsAny(ToLower(message), PrintingKeywords) && !ContainsAny(ToLower(message), BindingKeywords)
              && ContainsAny(ToLower(message), LogisticsKeywords)
    ensures r == EcoPrinting <==>
              !ContainsAny(ToLower(message), PrintingKeywords) && !ContainsAny(ToLower(message), BindingKeywords)
              && !ContainsAny(ToLower(message), LogisticsKeywords) && ContainsAny(ToLower(message), EcoKeywords)
  {
    var lowerMessage := ToLower(message);
    if ContainsAny(lowerMessage, PrintingKeywords) then Printing
    else if ContainsAny(lowerMessage, BindingKeywords) then Binding
    else if ContainsAny(lowerMessage, LogisticsKeywords) then Logistics
    else if ContainsAny(lowerMessage, EcoKeywords) then EcoPrinting
    else Printing
  }

  /** A string without ASCII capitals is its own lower-case form. */
  lemma {:induction false} ToLowerFixed(s: string)
    requires forall i :: 0 <= i < |s| ==> !('A' <= s[i] <= 'Z')
    ensures ToLower(s) == s
  {
    assert forall i :: 0 <= i < |s| ==> ToLower(s)[i] == s[i];
  }

  /** Any message that mentions 印刷 is a printing request, even when it
      also names an eco keyword (環境印刷, "environmental printing"). */
  lemma PrintingWins(message: string)
    requires Contains(message, "印刷")
    ensures DetectServiceType(message) == Printing
  {
    ToLowerFixed("印刷");
    ContainsToLower(message, "印刷");
    assert "印刷" in PrintingKeywords;
  }

  lemma EcoPrintingIsPrinting()
    ensures DetectServiceType("環境印刷") == Printing
  {
    assert OccursAt("環境印刷", "印刷", 2);
    PrintingWins("環境印刷");
  }

  /** Keywords are matched after lower-casing, so the certification mark
      written in capitals selects eco-printing. */
  lemma CapitalFscIsEcoPrinting()
    ensures DetectServiceType("FSC認証") == EcoPrinting
  {
    var lower := ToLower("FSC認証");
    assert lower == "fsc認証";
    forall w | w in PrintingKeywords + BindingKeywords + LogisticsKeywords
      ensures !Contains(lower, w)
    {
      NotContainsFirst(lower, w);
    }
    assert !ContainsAny(lower, PrintingKeywords);
    assert !ContainsAny(lower, BindingKeywords);
    assert !ContainsAny(lower, LogisticsKeywords);
    assert OccursAt(lower, "fsc", 0);
    assert "fsc" in EcoKeywords;
  }

  /** The two services the classifier never picks. */
  lemma NeverConsultingOrReport(message: string)
    ensures DetectServiceType(message) != SdgsConsulting
    ensures DetectServiceType(message) != SustainabilityReport
  {
  }

  const QuoteWords: seq<string> := ["見積", "quote", "estimate"]

  /** The input asks for a quote when one of the quote words occurs in the
      raw (not lower-cased) text, at some position. */
  predicate AsksForQuote(inputText: string): (r: bool)
    ensures r <==> exists w, i: nat :: w in QuoteWords && OccursAt(inputText, w, i)
  {
    Contains(inputText, "見積") || Contains(inputText, "quote") || Contains(inputText, "estimate")
  }

  /** Matching is case-sensitive here, unlike the classifier. */
  lemma CapitalQuoteDoesNotAsk()
    ensures !AsksForQuote("QUOTE")
  {
    NotContainsFirst("QUOTE", "見積");
    NotContainsFirst("QUOTE", "quote");
    NotContainsFirst("QUOTE", "estimate");
  }

  /** The fixed sample quote `sendMessage` hands on; only its id, service type
      and the customer's text vary. */
  function SampleQuote(id: string, serviceType: ServiceType, inputText: string): (q: Quote)
    ensures q.price == 45000 && q.turnaround == 5
    ensures q.discountApplied == None && q.createdAt == None
    ensures q.specs.serviceType == Some(serviceType) && q.specs.customSpecs == Some(inputText)
    ensures q.specs.quantity == 1000 && q.specs.productType == "チラシ"
  {
    Quote(id,
          Specs(Some(serviceType), "チラシ", "A4", 1000, "上質紙 110kg", "4色カラー", ["折り加工"],
                Some(inputText), None, None, None, None, None, None, None, None, None, None, None),
          45000, 5, None, None)
  }

  /** The sample quote is not what the calculator would charge for its own
      spec: none of its codes is in the price tables, so the calculator
      prices it as 1000 'other' items at 85000 and 6 days. */
  lemma SampleQuoteIsNotCalculated(id: string, serviceType: ServiceType, inputText: string)
    ensures PrintCalculator.QuotePrice(SampleQuote(id, serviceType, inputText).specs) == 85000
    ensures PrintCalculator.TurnaroundDays(SampleQuote(id, serviceType, inputText).specs) == 6
  {
    var s := SampleQuote(id, serviceType, inputText).specs;
    assert PrintCalculator.FinishingCost(["折り加工"]) == 0.0 by {
      assert ["折り加工"][..0] == [];
    }
    assert PrintCalculator.UnitPrice(s) == 10000.0;
    assert PrintCalculator.RawPrice(s) == 100000.0;
    assert PrintCalculator.DiscountedPrice(s) == 85000.0;
    assert PrintCalculator.QuotePrice(s) == PrintCalculator.Ceil(850.0) * 100;
  }

  /** What the AI call produced: a reply, or a failure carrying the message
      of the `Error` thrown (`None` for anything else thrown). */
  datatype AiOutcome = Reply(text: string) | Failed(message: Option<string>)

  /** The text shown in chat when the AI call fails. */
  function ErrorText(message: Option<string>): (r: string)
    ensures message.Some? ==> Contains(r, message.value)
    ensures message.None? ==> Contains(r, "不明なエラー")
  {
    var prefix := "エラーが発生しました: ";
    var detail := message.GetOr("不明なエラー");
    var text := prefix + detail + "。APIキーが正しく設定されているか確認してください。";
    assert OccursAt(text, detail, |prefix|);
    text
  }

  /** The chat's answer to an outcome: the reply text or the error text. */
  function AnswerText(outcome: AiOutcome): (r: string)
    ensures outcome.Reply? ==> r == outcome.text
    ensures outcome.Failed? ==> r == ErrorText(outcome.message)
    ensures outcome.Failed? ==> Contains(r, outcome.message.GetOr("不明なエラー"))
  {
    match outcome
    case Reply(text) => text
    case Failed(message) => ErrorText(message)
  }

  /** The state of one chat: its messages, the typing indicator and the language. */
  class Session {
    var messages: seq<ChatMessage>
    var isTyping: bool
    var language: Language

    /** The hook's initial state: one AI message with id `'1'` holding the
        initial message, or the Japanese greeting when there is none. */
    constructor (initialMessage: Option<string>, now: Timestamp)
      ensures language == Ja && !isTyping
      ensures initialMessage.Some? && initialMessage.value != "" ==>
                messages == [ChatMessage("1", initialMessage.value, Ai, now)]
      ensures !(initialMessage.Some? && initialMessage.value != "") ==>
                messages == [ChatMessage("1", WelcomeMessage(Ja), Ai, now)]
    {
      var content := if initialMessage.Some? && initialMessage.value != "" then initialMessage.value
                     else WelcomeMessage(Ja);
      messages := [ChatMessage("1", content, Ai, now)];
      isTyping := false;
      language := Ja;
    }

    /** The part of `sendMessage` before the AI call is awaited: blank input
        changes nothing; otherwise the user's message is appended, typing
        starts and the detected service is reported. */
    method BeginSend(inputText: string, sentAt: nat) returns (detected: Option<ServiceType>)
      modifies this`messages, this`isTyping
      ensures AllWhitespace(inputText) ==>
                detected == None && messages == old(messages) && isTyping == old(isTyping)
      ensures !AllWhitespace(inputText) ==>
                && messages == old(messages) + [ChatMessage(NatToDecimal(sentAt), inputText, User, sentAt)]
                && isTyping
                && detected == Some(DetectServiceType(inputText))
    {
      if Trim(inputText) == [] {
        return None;
      }
      var userMessage := ChatMessage(NatToDecimal(sentAt), inputText, User, sentAt);
      messages := messages + [userMessage];
      isTyping := true;
      var serviceType := DetectServiceType(inputText);
      detected := Some(serviceType);
    }

    /** The part of `sendMessage` after the AI call settles: the reply, or
        the error text, is appended; the sample quote is produced when the
        call succeeded, a quote listener is present and the input asks for a
        quote; typing ends either way. */
    method FinishSend(inputText: string, answeredAt: nat, outcome: AiOutcome, hasQuoteListener: bool)
      returns (quote: Option<Quote>)
      modifies this`messages, this`isTyping
      ensures messages == old(messages) + [ChatMessage(NatToDecimal(answeredAt + 1), AnswerText(outcome), Ai, answeredAt)]
      ensures !isTyping
      ensures quote.Some? <==> outcome.Reply? && hasQuoteListener && AsksForQuote(inputText)
      ensures quote.Some? ==>
                quote.value == SampleQuote("QT-" + NatToDecimal(answeredAt), DetectServiceType(inputText), inputText)
    {
      quote := None;
      match outcome {
        case Reply(aiResponse) =>
          var aiMessage := ChatMessage(NatToDecimal(answeredAt + 1), aiResponse, Ai, answeredAt);
          messages := messages + [aiMessage];
          if hasQuoteListener && AsksForQuote(inputText) {
            quote := Some(SampleQuote("QT-" + NatToDecimal(answeredAt), DetectServiceType(inputText), inputText));
          }
        case Failed(message) =>
          var errorMessage := ChatMessage(NatToDecimal(answeredAt + 1), ErrorText(message), Ai, answeredAt);
          messages := messages + [errorMessage];
      }
      isTyping := false;
    }

    /** `sendMessage` with the AI call settled at once: blank input changes
        nothing; otherwise the user's message and then the reply (or the
        error text) are appended, the detected service is reported and the
        sample quote is produced when the call succeeded, a quote listener
        is present and the input asks for a quote. The clock readings and the
        AI outcome are parameters. */
    method SendMessage(inputText: string, sentAt: nat, answeredAt: nat, outcome: AiOutcome,
                       hasQuoteListener: bool)
      returns (detected: Option<ServiceType>, quote: Option<Quote>)
      modifies this`messages, this`isTyping
      ensures AllWhitespace(inputText) ==>
                messages == old(messages) && isTyping == old(isTyping) && detected == None && quote == None
      ensures !AllWhitespace(inputText) ==>
                && messages == old(messages) + [ChatMessage(NatToDecimal(sentAt), inputText, User, sentAt),
                                                ChatMessage(NatToDecimal(answeredAt + 1), AnswerText(outcome), Ai, answeredAt)]
                && !isTyping
                && detected == Some(DetectServiceType(inputText))
      ensures quote.Some? <==>
                !AllWhitespace(inputText) && outcome.Reply? && hasQuoteListener && AsksForQuote(inputText)
      ensures quote.Some? ==>
                quote.value == SampleQuote("QT-" + NatToDecimal(answeredAt), DetectServiceType(inputText), inputText)
    {
      detected := BeginSend(inputText, sentAt);
      quote := None;
      if detected.Some? {
        ghost var sent := messages;
        quote := FinishSend(inputText, answeredAt, outcome, hasQuoteListener);
        assert messages == sent + [ChatMessage(NatToDecimal(answeredAt + 1), AnswerText(outcome), Ai, answeredAt)];
      }
    }

    /** `changeLanguage`: switch language and restart with its greeting. */
    method ChangeLanguage(lang: Language, now: nat)
      modifies this
      ensures language == lang && isTyping == old(isTyping)
      ensures messages == [ChatMessage(NatToDecimal(now), WelcomeMessage(lang), Ai, now)]
    {
      language := lang;
      messages := [ChatMessage(NatToDecimal(now), WelcomeMessage(lang), Ai, now)];
    }

    /** `clearChat`: restart with the greeting of the current language. */
    method ClearChat(now: nat)
      modifies this
      ensures language == old(language) && isTyping == old(isTyping)
      ensures messages == [ChatMessage(NatToDecimal(now), WelcomeMessage(language), Ai, now)]
    {
      messages := [ChatMessage(NatToDecimal(now), WelcomeMessage(language), Ai, now)];
    }
  }
}
