/** The rule-based chat assistant: a chat history with a welcome message,
    a language code, and a first-match keyword dispatcher with one table of
    rules for Hindi and one for every other language. */
module Assistant {
  import opened Common
  import opened Records

  datatype Role = FromUser | FromAssistant

  /** What a reply is about; `General` is the fallback reply. */
  datatype Topic = Eligibility | PmKisan | Ayushman | ApplicationStatus | Documents | Complaint | General

  /** The two sets of canned texts. */
  datatype Table = EnglishTable | HindiTable

  /** The content of a chat message: text the user typed, or one of the
      assistant's canned texts, named by its table and purpose. `Render`
      gives the exact text of each. */
  datatype Content = Typed(text: string) | WelcomeText(table: Table) | ReplyText(table: Table, topic: Topic)

  datatype ChatMessage = ChatMessage(role: Role, content: Content)

  /** An assistant: its history, its language code, and the user profile it
      was given (stored, never consulted). */
  datatype Session = Session(history: seq<ChatMessage>, language: string, userProfile: Option<Profile>)

  /** A dispatch rule: it fires when the lowered message contains one of its
      keywords. */
  datatype Rule = Rule(keywords: seq<string>, topic: Topic)

  /** The English rules, in the order they are tried. */
  const EnglishRules: seq<Rule> := [
    Rule(["eligible", "qualify"], Eligibility),
    Rule(["pm kisan", "pm-kisan"], PmKisan),
    Rule(["ayushman bharat", "pmjay"], Ayushman),
    Rule(["application status", "check status"], ApplicationStatus),
    Rule(["document", "upload"], Documents),
    Rule(["grievance", "complaint"], Complaint)
  ]

  /** The Hindi rules, in the order they are tried. */
  const HindiRules: seq<Rule> := [
    Rule(["पात्र", "योग्य"], Eligibility),
    Rule(["पीएम किसान", "pm kisan"], PmKisan),
    Rule(["आयुष्मान भारत", "pmjay"], Ayushman),
    Rule(["आवेदन स्थिति", "स्टेटस"], ApplicationStatus),
    Rule(["दस्तावेज", "अपलोड"], Documents),
    Rule(["शिकायत", "समस्या"], Complaint)
  ]


  predicate Fires(rule: Rule, lowered: string)
  {
    exists i :: 0 <= i < |rule.keywords| && Contains(lowered, rule.keywords[i])
  }

  /** The rules tried one by one, as the `if` chain does: the topic of the
      first rule that fires, or `General` when none does. */
  function Dispatch(rules: seq<Rule>, lowered: string): Topic
  {
    if |rules| == 0 then General
    else if Fires(rules[0], lowered) then rules[0].topic
    else Dispatch(rules[1..], lowered)
  }

  /** The dispatch is first-match: when some rule fires, the answer is the
      topic of the first one that does; it is `General` exactly when none
      fires (no rule has the topic `General`). */
  lemma {:induction false} DispatchIsFirstMatch(rules: seq<Rule>, lowered: string)
    requires forall k :: 0 <= k < |rules| ==> rules[k].topic != General
    ensures forall k :: (0 <= k < |rules| && Fires(rules[k], lowered) &&
      (forall j :: 0 <= j < k ==> !Fires(rules[j], lowered))) ==> Dispatch(rules, lowered) == rules[k].topic
    ensures Dispatch(rules, lowered) == General <==> forall k :: 0 <= k < |rules| ==> !Fires(rules[k], lowered)
  {
    if |rules| > 0 && !Fires(rules[0], lowered) {
      DispatchIsFirstMatch(rules[1..], lowered);
      assert forall k :: 0 < k < |rules| ==> rules[k] == rules[1..][k - 1];
    }
  }

  /** The dispatch answers `General` or the topic of one of its rules. */
  lemma {:induction false} DispatchFromRules(rules: seq<Rule>, lowered: string) returns (i: nat)
    ensures Dispatch(rules, lowered) == General || (i < |rules| && Dispatch(rules, lowered) == rules[i].topic)
  {
    if |rules| == 0 || Fires(rules[0], lowered) {
      i := 0;
    } else {
      var j := DispatchFromRules(rules[1..], lowered);
      i := j + 1;
    }
  }

  /** With distinct topics, the dispatch answers the k-th rule's topic
      exactly when that rule fires and none before it does. */
  lemma {:induction false} DispatchPicks(rules: seq<Rule>, lowered: string, k: nat)
    requires k < |rules|
    requires forall i, j :: 0 <= i < j < |rules| ==> rules[i].topic != rules[j].topic
    requires forall i :: 0 <= i < |rules| ==> rules[i].topic != General
    ensures Dispatch(rules, lowered) == rules[k].topic <==>
      Fires(rules[k], lowered) && forall j :: 0 <= j < k ==> !Fires(rules[j], lowered)
  {
    var rest := rules[1..];
    if Fires(rules[0], lowered) {
      if k > 0 {
        assert rules[0].topic != rules[k].topic;
      }
    } else if k > 0 {
      DispatchPicks(rest, lowered, k - 1);
      assert forall i :: 0 < i < |rules| ==> rules[i] == rest[i - 1];
    } else {
      var i := DispatchFromRules(rest, lowered);
      if Dispatch(rest, lowered) != General {
        assert rest[i] == rules[i + 1];
      }
    }
  }

  /** The table replies come from: Hindi for exactly `hi`. */
  function ReplyTable(language: string): Table
  {
    if language == "hi" then HindiTable else EnglishTable
  }

  /** The table the welcome comes from: English for exactly `en`. */
  function WelcomeTable(language: string): Table
  {
    if language == "en" then EnglishTable else HindiTable
  }

  /** The rules of a table. */
  function Rules(t: Table): seq<Rule>
  {
    if t == HindiTable then HindiRules else EnglishRules
  }

  /** `getMockResponse`: lower-case the message, then answer from the Hindi
      rules when the language is exactly `hi` and from the English rules
      otherwise. */
  function MockResponse(language: string, message: string): Content
  {
    var t := ReplyTable(language);
    ReplyText(t, Dispatch(Rules(t), Lower(message)))
  }

  /** A history that is exactly one assistant welcome, in English iff
      `language` is `en`. */
  predicate FreshHistory(history: seq<ChatMessage>, language: string)
  {
    && |history| == 1
    && history[0].role == FromAssistant
    && history[0].content.WelcomeText?
    && (history[0].content.table == EnglishTable <==> language == "en")
  }

  /** `new AIAssistant(options)`: the language defaults to `en` when absent
      or empty; the history is one welcome message. */
  function NewAssistant(language: Option<string>, profile: Option<Profile>): (a: Session)
    ensures a.language == (if language == None || language == Some("") then "en" else language.value)
    ensures FreshHistory(a.history, a.language)
    ensures a.userProfile == profile
  {
    var code := if language.Some? && language.value != "" then language.value else "en";
    Session([ChatMessage(FromAssistant, WelcomeText(WelcomeTable(code)))], code, profile)
  }

  datatype Sent = Sent(session: Session, reply: ChatMessage)

  /** `sendMessage`: the message verbatim, then the reply, are appended; the
      reply returned is the new last entry, from the table of the language. */
  function SendMessage(a: Session, message: string): (r: Sent)
    ensures r.session.history == a.history + [ChatMessage(FromUser, Typed(message)), r.reply]
    ensures r.session.history[|r.session.history| - 1] == r.reply
    ensures r.reply.role == FromAssistant && r.reply.content.ReplyText?
    ensures r.reply.content.table == HindiTable <==> a.language == "hi"
    ensures r.session.language == a.language && r.session.userProfile == a.userProfile
  {
    var reply := ChatMessage(FromAssistant, MockResponse(a.language, message));
    Sent(a.(history := a.history + [ChatMessage(FromUser, Typed(message)), reply]), reply)
  }

  /** `setLanguage`: the language changes, the history does not. */
  function SetLanguage(a: Session, language: string): (a': Session)
    ensures a'.language == language
    ensures a'.history == a.history && a'.userProfile == a.userProfile
  {
    a.(language := language)
  }

  /** `updateUserProfile`: only the stored profile changes. */
  function UpdateUserProfile(a: Session, profile: Option<Profile>): (a': Session)
    ensures a'.userProfile == profile
    ensures a'.history == a.history && a'.language == a.language
  {
    a.(userProfile := profile)
  }

  /** `clearChatHistory`: one welcome message for the current language. */
  function ClearChatHistory(a: Session): (a': Session)
    ensures FreshHistory(a'.history, a.language)
    ensures a'.language == a.language && a'.userProfile == a.userProfile
  {
    a.(history := [ChatMessage(FromAssistant, WelcomeText(WelcomeTable(a.language)))])
  }

  /** The reply depends only on the language and the lowered message: not on
      the history, not on the stored profile. */
  lemma ReplyDependsOnLanguageAndText(a: Session, b: Session, m1: string, m2: string)
    requires a.language == b.language && Lower(m1) == Lower(m2)
    ensures SendMessage(a, m1).reply == SendMessage(b, m2).reply
  {
  }

  /** English dispatch is first-match: a message mentioning eligibility gets
      the eligibility reply whatever else it mentions. */
  lemma EligibilityComesFirst(language: string, message: string)
    requires language != "hi"
    requires Contains(Lower(message), "eligible") || Contains(Lower(message), "qualify")
    ensures MockResponse(language, message) == ReplyText(EnglishTable, Eligibility)
  {
    assert Fires(EnglishRules[0], Lower(message)) by {
      if Contains(Lower(message), "eligible") {
        assert EnglishRules[0].keywords[0] == "eligible";
      } else {
        assert EnglishRules[0].keywords[1] == "qualify";
      }
    }
  }

  /** The complaint reply is given exactly when the message fires the sixth
      English rule and none of the five before it. */
  lemma ComplaintComesLast(language: string, message: string)
    requires language != "hi"
    ensures MockResponse(language, message) == ReplyText(EnglishTable, Complaint) <==>
      (forall k :: 0 <= k < 5 ==> !Fires(EnglishRules[k], Lower(message))) && Fires(EnglishRules[5], Lower(message))
  {
    DispatchPicks(EnglishRules, Lower(message), 5);
  }

  /** Sending `messages` one after another from `a`. */
  function Converse(a: Session, messages: seq<string>): Session
    decreases |messages|
  {
    if |messages| == 0 then a else Converse(SendMessage(a, messages[0]).session, messages[1..])
  }

  /** A conversation of n messages adds exactly 2n entries and keeps the
      earlier history as a prefix. */
  lemma {:induction false} ConversationGrows(a: Session, messages: seq<string>)
    ensures |Converse(a, messages).history| == |a.history| + 2 * |messages|
    ensures Converse(a, messages).history[..|a.history|] == a.history
    decreases |messages|
  {
    if |messages| > 0 {
      var next := SendMessage(a, messages[0]).session;
      ConversationGrows(next, messages[1..]);
      var h := Converse(next, messages[1..]).history;
      assert h[..|a.history|] == h[..|next.history|][..|a.history|];
    }
  }

  /** The first message of a conversation sits right after the earlier
      history, followed by an assistant reply. */
  lemma {:induction false} FirstExchange(a: Session, messages: seq<string>)
    requires |messages| > 0
    ensures |Converse(a, messages).history| > |a.history| + 1
    ensures Converse(a, messages).history[|a.history|] == ChatMessage(FromUser, Typed(messages[0]))
    ensures Converse(a, messages).history[|a.history| + 1].role == FromAssistant
  {
    var next := SendMessage(a, messages[0]).session;
    var h := Converse(next, messages[1..]).history;
    ConversationGrows(next, messages[1..]);
    var n := |a.history|;
    assert h[n] == h[..|next.history|][n];
    assert h[n + 1] == h[..|next.history|][n + 1];
  }

  /** In a conversation the user's texts appear verbatim and in order,
      each followed by an assistant reply. */
  lemma {:induction false} ConversationAlternates(a: Session, messages: seq<string>, i: nat)
    requires i < |messages|
    ensures |Converse(a, messages).history| == |a.history| + 2 * |messages|
    ensures Converse(a, messages).history[|a.history| + 2 * i] == ChatMessage(FromUser, Typed(messages[i]))
    ensures Converse(a, messages).history[|a.history| + 2 * i + 1].role == FromAssistant
    decreases |messages|
  {
    if i == 0 {
      ConversationGrows(a, messages);
      FirstExchange(a, messages);
    } else {
      var next := SendMessage(a, messages[0]).session;
      ConversationAlternates(next, messages[1..], i - 1);
      assert messages[1..][i - 1] == messages[i];
    }
  }

  /** The welcome and the replies follow different rules: any code other
      than `en` and `hi` (a browser code such as `en-US`, say) gets the
      Hindi welcome but English replies. */
  lemma WelcomeAndRepliesDisagree(language: string, profile: Option<Profile>, message: string)
    requires language != "en" && language != "hi" && language != ""
    ensures var a := NewAssistant(Some(language), profile);
      && a.history[0].content == WelcomeText(HindiTable)
      && SendMessage(a, message).reply.content.table == EnglishTable
  {
  }

  /** The exact text of a message as the chat window shows it. */
  function Render(c: Content): string
  {
    match c
    case Typed(text) => text
    case WelcomeText(EnglishTable) =>
      "Hello! I\'m your welfare scheme assistant. How can I help you today?"
    case WelcomeText(HindiTable) =>
      "नमस्ते! मैं आपका कल्याण योजना सहायक हूँ। आज मैं आपकी कैसे मदद कर सकता हूँ?"
    case ReplyText(EnglishTable, Eligibility) =>
      "To check your eligibility for welfare schemes, I need to know a few details about you. If you\'ve completed your profile, I can recommend schemes based on your age, income, location, and other factors. Would you like me to check what schemes you might be eligible for?"
    case ReplyText(EnglishTable, PmKisan) =>
      "To apply for PM Kisan Yojana:\n\n1. Ensure you\'re a small or marginal farmer\n2. Prepare documents: Aadhaar card, land records, bank account details\n3. Register through our application portal\n4. Upload required documents\n5. Submit your application\n\nYou can track the status of your application through the My Applications section."
    case ReplyText(EnglishTable, Ayushman) =>
      "For Ayushman Bharat (PMJAY), the following documents are needed:\n\n1. Aadhaar Card\n2. Ration Card\n3. Income Certificate\n4. Recent passport-sized photograph\n5. Proof of residence\n\nIf eligible, you can apply directly through our platform by searching for the scheme and clicking the \"Apply Now\" button."
    case ReplyText(EnglishTable, ApplicationStatus) =>
      "You can check your application status by visiting the \"My Applications\" section in the main menu. There you\'ll find a list of all your applications with their current status (Pending, Approved, Rejected). You can click on any application to view more details."
    case ReplyText(EnglishTable, Documents) =>
      "Most schemes require basic documents such as:\n\n1. Aadhaar Card\n2. Income Certificate\n3. Caste Certificate (if applicable)\n4. Bank Account Details\n5. Passport-sized photograph\n\nSpecific schemes may require additional documents. When you apply for a scheme, our system will show you exactly what documents are needed."
    case ReplyText(EnglishTable, Complaint) =>
      "To file a grievance:\n\n1. Go to the \"Grievances\" section in the main menu\n2. Click on \"File New Grievance\"\n3. Select the issue type and provide details\n4. Attach any supporting documents if needed\n5. Submit your grievance\n\nYou can track the status of your grievance in the \"My Grievances\" section."
    case ReplyText(EnglishTable, General) =>
      "I\'m here to help you with information about welfare schemes, application processes, and checking eligibility. Could you please provide more details about what you\'re looking for?"
    case ReplyText(HindiTable, Eligibility) =>
      "कल्याण योजनाओं के लिए आपकी पात्रता जांचने के लिए, मुझे आपके बारे में कुछ विवरण जानने की आवश्यकता है। यदि आपने अपना प्रोफ़ाइल पूरा कर लिया है, तो मैं आपकी उम्र, आय, स्थान और अन्य कारकों के आधार पर योजनाओं की सिफारिश कर सकता हूं। क्या आप चाहते हैं कि मैं जांचूं कि आप किन योजनाओं के लिए पात्र हो सकते हैं?"
    case ReplyText(HindiTable, PmKisan) =>
      "पीएम किसान योजना के लिए आवेदन करने के लिए:\n\n1. सुनिश्चित करें कि आप छोटे या सीमांत किसान हैं\n2. दस्तावेज तैयार करें: आधार कार्ड, भूमि रिकॉर्ड, बैंक खाता विवरण\n3. हमारे आवेदन पोर्टल के माध्यम से पंजीकरण करें\n4. आवश्यक दस्तावेज अपलोड करें\n5. अपना आवेदन जमा करें\n\nआप मेरे आवेदन अनुभाग के माध्यम से अपने आवेदन की स्थिति को ट्रैक कर सकते हैं।"
    case ReplyText(HindiTable, Ayushman) =>
      "आयुष्मान भारत (PMJAY) के लिए, निम्नलिखित दस्तावेज़ आवश्यक हैं:\n\n1. आधार कार्ड\n2. राशन कार्ड\n3. आय प्रमाण पत्र\n4. हाल का पासपोर्ट आकार का फोटो\n5. निवास प्रमाण\n\nयदि पात्र हैं, तो आप योजना की खोज करके और \"अभी आवेदन करें\" बटन पर क्लिक करके हमारे प्लेटफॉर्म के माध्यम से सीधे आवेदन कर सकते हैं।"
    case ReplyText(HindiTable, ApplicationStatus) =>
      "आप मुख्य मेनू में \"मेरे आवेदन\" अनुभाग पर जाकर अपने आवेदन की स्थिति की जांच कर सकते हैं। वहां आपको अपने सभी आवेदनों की उनकी वर्तमान स्थिति (लंबित, स्वीकृत, अस्वीकृत) के साथ एक सूची मिलेगी। आप अधिक विवरण देखने के लिए किसी भी आवेदन पर क्लिक कर सकते हैं।"
    case ReplyText(HindiTable, Documents) =>
      "अधिकांश योजनाओं के लिए बुनियादी दस्तावेजों की आवश्यकता होती है जैसे:\n\n1. आधार कार्ड\n2. आय प्रमाण पत्र\n3. जाति प्रमाण पत्र (यदि लागू हो)\n4. बैंक खाता विवरण\n5. पासपोर्ट आकार का फोटो\n\nविशिष्ट योजनाओं के लिए अतिरिक्त दस्तावेजों की आवश्यकता हो सकती है। जब आप किसी योजना के लिए आवेदन करते हैं, तो हमारा सिस्टम आपको दिखाएगा कि कौन से दस्तावेज आवश्यक हैं।"
    case ReplyText(HindiTable, Complaint) =>
      "शिकायत दर्ज करने के लिए:\n\n1. मुख्य मेनू में \"शिकायतें\" अनुभाग पर जाएं\n2. \"नई शिकायत दर्ज करें\" पर क्लिक करें\n3. समस्या प्रकार का चयन करें और विवरण प्रदान करें\n4. यदि आवश्यक हो तो कोई सहायक दस्तावेज़ संलग्न करें\n5. अपनी शिकायत जमा करें\n\nआप \"मेरी शिकायतें\" अनुभाग में अपनी शिकायत की स्थिति को ट्रैक कर सकते हैं।"
    case ReplyText(HindiTable, General) =>
      "मैं आपकी कल्याण योजनाओं, आवेदन प्रक्रियाओं और पात्रता जांचने के बारे में जानकारी के साथ मदद करने के लिए यहां हूं। कृपया आप जो खोज रहे हैं उसके बारे में अधिक विवरण प्रदान करें?"
  }
}
