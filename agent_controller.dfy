/**
 * The choice of a system prompt from the user's intent (aifr/agent_controller.py):
 * keyword rules over the lower-cased prompt, tried in a fixed priority order.
 */
module AgentController {
  import opened Wrappers
  import opened Text

  datatype AgentType = Default | Debugger | Creative | Summarizer | Coder

  /** The system prompt of each agent type. */
  const DefaultPrompt: string :=
    "Jesteś terminalowym asystentem. Odpowiadasz tylko tekstem, bez markdown "
    + "i bez bloków kodu. Jeśli w wiadomości jest blok oznaczony "
    + "===FILE_START=== ... ===FILE_END===, to jest pełna treść pliku; zawsze "
    + "z niej korzystasz i nigdy nie piszesz, że plik nie został wklejony. "
    + "Jeśli jest blok ===CONSOLE_START=== ... ===CONSOLE_END===, to jest "
    + "zawartość terminala/konsoli użytkownika - analizujesz ją w kontekście pytania. "
    + "Jeśli bloków nie ma, i tak odpowiadasz na pytanie na bazie dostępnego "
    + "kontekstu. Nie prosisz o ponowne wklejenie pliku. Jeśli proszą o "
    + "podsumowanie, po prostu je podaj. Wybierasz model LLM odpowiedni do "
    + "zadania i zwracasz gotową odpowiedź."
  const DebuggerPrompt: string :=
    "Jesteś ekspertem DevOps i Python. Analizujesz logi błędów, stack traces, "
    + "i kod źródłowy. Twoja odpowiedź powinna:\n"
    + "1. Zidentyfikować główną przyczynę błędu\n"
    + "2. Wyjaśnić co poszło nie tak\n"
    + "3. Zaproponować konkretne rozwiązanie\n"
    + "Bądź zwięzły i techniczny. Nie używaj markdown. Jeśli widzisz kod lub logi "
    + "między ===CONSOLE_START=== i ===CONSOLE_END===, to jest output polecenia."
  const CreativePrompt: string :=
    "Jesteś kreatywnym pisarzem. Używasz bogatego słownictwa, metafor, "
    + "i rozbudowanych opisów. Twoje odpowiedzi powinny być barwne i innowacyjne. "
    + "Nie ograniczaj się do suchych faktów - dodawaj kontekst, emocje, i szczegóły. "
    + "Pisz płynnie i angażująco. Nie używaj markdown ani bloków kodu."
  const SummarizerPrompt: string :=
    "Jesteś analitykiem treści. Twoim zadaniem jest ekstrakcja najważniejszych "
    + "informacji z dostarczonego tekstu. Odpowiadasz w formie:\n"
    + "- Krótkich punktów wypunktowanych (używaj - nie *)\n"
    + "- Zwięzłych stwierdzeń bez zbędnych detali\n"
    + "- Hierarchii ważności informacji\n"
    + "Jeśli tekst jest między ===FILE_START=== i ===FILE_END===, to pełna treść "
    + "do analizy. Nie używaj markdown."
  const CoderPrompt: string :=
    "Jesteś ekspertem programowania. Analizujesz kod, proponujesz usprawnienia, "
    + "wyjaśniasz działanie funkcji i algorytmów. Gdy widzisz kod:\n"
    + "1. Oceń jego jakość i poprawność\n"
    + "2. Wskaż potencjalne problemy\n"
    + "3. Zasugeruj best practices\n"
    + "Bądź konkretny i techniczny. Nie używaj markdown ani bloków kodu w odpowiedzi."

  /** The registry of system prompts, one for every agent type. */
  const AgentPrompts: map<AgentType, string> := map[
    Default := DefaultPrompt,
    Debugger := DebuggerPrompt,
    Creative := CreativePrompt,
    Summarizer := SummarizerPrompt,
    Coder := CoderPrompt
  ]

  /** The display names of the agents. */
  const AgentNames: map<AgentType, string> := map[
    Default := "General Assistant",
    Debugger := "Debugger/DevOps",
    Creative := "Creative Writer",
    Summarizer := "Summarizer",
    Coder := "Code Analyst"
  ]

  const DebugKeywords: seq<string> := [
    "błąd", "error", "exception", "traceback", "failed", "fail",
    "nie działa", "crash", "bug", "debug", "fix", "napraw",
    "stack trace", "warning"
  ]

  const CodeKeywords: seq<string> := [
    "kod", "code", "function", "funkcja", "class", "klasa",
    "algorithm", "algorytm", "review", "refactor"
  ]

  const CreativeKeywords: seq<string> := [
    "opowiadanie", "wiersz", "poem", "story", "list", "napisz",
    "wymyśl", "kreaty", "kreatywn", "historia", "bajka"
  ]

  const SummaryKeywords: seq<string> := [
    "streść", "streszcz", "podsumuj", "summarize", "skrót",
    "najważniejsze", "główne punkty", "tldr", "w skrócie"
  ]

  /** `any(kw in text for kw in keywords)`. */
  predicate AnyIn(keywords: seq<string>, text: string) {
    exists k | 0 <= k < |keywords| :: Contains(text, keywords[k])
  }

  /** `file_size and file_size > 2000`: a file of more than 2000 characters. */
  predicate LargeFile(fileSize: Option<int>) {
    fileSize.Some? && fileSize.value > 2000
  }

  /** A summary is asked for: a summary keyword, a short prompt about a file, or a large file. */
  predicate WantsSummary(prompt: string, hasFile: bool, fileSize: Option<int>) {
    AnyIn(SummaryKeywords, Lower(prompt)) || (hasFile && |prompt| < 50) || LargeFile(fileSize)
  }

  /**
   * `detect_agent_type`: the debugger for error words or console output, the
   * coder for code words about a file, then the creative writer, then the
   * summarizer, and the general assistant when no rule applies.
   */
  function DetectAgentType(prompt: string, hasConsole: bool, hasFile: bool, fileSize: Option<int>): (r: AgentType)
    ensures var low := Lower(prompt);
      && (r == Debugger <==> AnyIn(DebugKeywords, low) || hasConsole)
      && (r == Coder <==> !(AnyIn(DebugKeywords, low) || hasConsole) && AnyIn(CodeKeywords, low) && hasFile)
      && (r == Creative <==>
            !(AnyIn(DebugKeywords, low) || hasConsole) && !(AnyIn(CodeKeywords, low) && hasFile)
            && AnyIn(CreativeKeywords, low))
      && (r == Summarizer <==>
            !(AnyIn(DebugKeywords, low) || hasConsole) && !(AnyIn(CodeKeywords, low) && hasFile)
            && !AnyIn(CreativeKeywords, low) && WantsSummary(prompt, hasFile, fileSize))
  {
    var low := Lower(prompt);
    if AnyIn(DebugKeywords, low) || hasConsole then Debugger
    else if AnyIn(CodeKeywords, low) && hasFile then Coder
    else if AnyIn(CreativeKeywords, low) then Creative
    else if AnyIn(SummaryKeywords, low) then Summarizer
    else if hasFile && |prompt| < 50 then Summarizer
    else if LargeFile(fileSize) then Summarizer
    else Default
  }

  /** The general assistant answers exactly when no rule applies. */
  lemma {:induction false} DefaultWhenNoRule(prompt: string, hasConsole: bool, hasFile: bool, fileSize: Option<int>)
    ensures var low := Lower(prompt);
      DetectAgentType(prompt, hasConsole, hasFile, fileSize) == Default <==>
        && !AnyIn(DebugKeywords, low) && !hasConsole
        && !(AnyIn(CodeKeywords, low) && hasFile)
        && !AnyIn(CreativeKeywords, low)
        && !WantsSummary(prompt, hasFile, fileSize)
  {
    var r := DetectAgentType(prompt, hasConsole, hasFile, fileSize);
    assert r == Default || r == Debugger || r == Coder || r == Creative || r == Summarizer;
  }

  /** Without a file the coder is never chosen. */
  lemma {:induction false} CoderNeedsFile(prompt: string, hasConsole: bool, fileSize: Option<int>)
    ensures DetectAgentType(prompt, hasConsole, false, fileSize) != Coder
  {
  }

  /** Python's `dict.get(key, default)`. */
  function Get<K, V>(m: map<K, V>, key: K, default: V): V {
    if key in m then m[key] else default
  }

  /** Every agent type has a prompt and a name, so neither lookup falls back. */
  lemma {:induction false} Registered(t: AgentType)
    ensures t in AgentPrompts && t in AgentNames
  {
    match t
    case Default =>
    case Debugger =>
    case Creative =>
    case Summarizer =>
    case Coder =>
  }

  /** `AGENT_PROMPTS.get(agent_type, AGENT_PROMPTS[DEFAULT])`: the agent's own registered prompt. */
  function SystemPrompt(t: AgentType): (r: string)
    ensures t in AgentPrompts && r == AgentPrompts[t]
  {
    Registered(t);
    Get(AgentPrompts, t, AgentPrompts[Default])
  }

  /** `names.get(agent_type, "Unknown")`: the agent's own registered name. */
  function AgentName(t: AgentType): (r: string)
    ensures t in AgentNames && r == AgentNames[t]
  {
    Registered(t);
    Get(AgentNames, t, "Unknown")
  }

  /** The five agents have five different, non-empty display names, none of them `Unknown`. */
  lemma {:induction false} AgentNamesDistinct(a: AgentType, b: AgentType)
    ensures AgentName(a) != "" && AgentName(a) != "Unknown"
    ensures a != b ==> AgentName(a) != AgentName(b)
  {
    var n := AgentName(a);
    assert n == "General Assistant" || n == "Debugger/DevOps" || n == "Creative Writer"
      || n == "Summarizer" || n == "Code Analyst";
    assert n[0] != 'U';
  }

  // ---------------------------------------------------------------------------
  // Examples of the agent tests

  /** A keyword found at a position of the text. */
  lemma {:induction false} KeywordAt(keywords: seq<string>, k: nat, text: string, i: nat)
    requires k < |keywords| && OccursAt(text, keywords[k], i)
    ensures AnyIn(keywords, text)
  {
  }

  lemma {:induction false} DebuggerExample(prompt: string)
    requires prompt == "Fix this error"
    ensures DetectAgentType(prompt, false, false, None) == Debugger
  {
    var low := Lower(prompt);
    assert low[0] == 'f' && low[1] == 'i' && low[2] == 'x';
    assert low[0..3] == DebugKeywords[10];
    KeywordAt(DebugKeywords, 10, low, 0);
  }

  lemma {:induction false} CoderExample(prompt: string)
    requires prompt == "Review this kod"
    ensures DetectAgentType(prompt, false, true, None) == Coder
  {
    var low := Lower(prompt);
    if AnyIn(DebugKeywords, low) {
      NoDebugKeyword(prompt);
    }
    assert low[12] == 'k' && low[13] == 'o' && low[14] == 'd';
    assert low[12..15] == CodeKeywords[0];
    KeywordAt(CodeKeywords, 0, low, 12);
  }

  lemma {:induction false} NoDebugKeyword(prompt: string)
    requires prompt == "Review this kod"
    ensures !AnyIn(DebugKeywords, Lower(prompt))
  {
    var low := Lower(prompt);
    assert low == "review this kod";
    forall k | 0 <= k < |DebugKeywords| ensures !Contains(low, DebugKeywords[k]) {
      var kw := DebugKeywords[k];
      forall i | 0 <= i <= |low| - |kw| ensures !OccursAt(low, kw, i) {
        assert low[i] != kw[0] || low[i + 1] != kw[1];
      }
    }
  }
}
