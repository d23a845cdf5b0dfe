/**
 * The AI service (services/geminiService.ts): the prompts it sends, the
 * order of the parts of a request, the post-processing of the replies
 * (suggested skill lines, the "Fontes de Pesquisa" section built from the
 * grounding chunks, the lesson-plan fallback text, the data URL of the
 * first inline image), and what each call does when the service fails.
 *
 * The network call itself is a parameter: a `Service` maps the request the
 * code builds to the reply it gets back, or to the error the SDK throws.
 */
module Gemini {
  import opened Wrappers
  import Lists
  import JsText
  import FormRules

  // ------------------------------------------------------------ data shapes

  /** `{mimeType, data}`: an attached file, or the inline data of a reply part. */
  datatype Blob = Blob(mimeType: Option<string>, data: Option<string>)

  /** A content part: `{text}`, `{inlineData}`, or neither. */
  datatype Part = Part(text: Option<string>, inlineData: Option<Blob>)

  /** What the code hands to `generateContent`: the parts, the system instruction and the search tool. */
  datatype Request = Request(parts: seq<Part>, systemInstruction: Option<string>, googleSearch: bool)

  /** `{title, uri}` of a web grounding source. */
  datatype WebSource = WebSource(title: Option<string>, uri: Option<string>)

  /** A grounding chunk; only the `web` ones become links. */
  datatype Chunk = Chunk(web: Option<WebSource>)

  /**
   * What the code reads from a reply: `response.text`, the grounding chunks
   * of the first candidate, and the content parts of the first candidate
   * (`None` when the candidate, its content or its parts are missing).
   */
  datatype Reply = Reply(text: Option<string>, chunks: Option<seq<Chunk>>, parts: Option<seq<Part>>)

  /** The remote call: a reply, or the error it throws. */
  type Service = Request -> Result<Reply, string>

  datatype QuestionParams = QuestionParams(
    grade: string, subject: string, count: int, discipline: string, context: string,
    language: string, bnccSkills: seq<Option<string>>, bnccManualDetails: Option<string>,
    additionalDetails: string, webSearch: bool, fileData: Option<Blob>)

  datatype SlideParams = SlideParams(
    discipline: string, grade: string, subject: string, count: int, duration: string,
    language: string, bnccSkills: seq<Option<string>>, context: string,
    additionalDetails: string, webSearch: bool, includeImages: bool, fileData: Option<Blob>)

  datatype LessonPlanParams = LessonPlanParams(
    period: string, grade: string, discipline: string, multidisciplinary: bool,
    days: seq<string>, bnccSkills: seq<Option<string>>, additionalDetails: Option<string>)

  // ---------------------------------------------------------------- prompts

  const SystemInstruction: string :=
    "\nAja como um mestre escolar brasileiro, um mago da pedagogia. \n" +
    "Você é especialista em BNCC e metodologias de ensino.\n" +
    "Sua tarefa é criar materiais didáticos precisos, eficientes e engajadores.\n" +
    "Sempre siga os códigos de habilidade fornecidos e valide suas escolhas com a base técnica da BNCC.\n"

  /** `value || 'Nenhum'`: a missing or empty value is replaced by the word "Nenhum". */
  function OrNenhum(value: Option<string>): (text: string)
    ensures text != []
    ensures value.Some? && value.value != [] ==> text == value.value
    ensures value.None? || value.value == [] ==> text == "Nenhum"
  {
    if value.Some? && value.value != [] then value.value else "Nenhum"
  }

  const Multidisciplinary: string := "Sim (integre com outras áreas)"
  const SingleDiscipline: string := "Não (foco exclusivo na disciplina)"

  /** The multidisciplinary flag picks one of two fixed phrases. */
  function MultidisciplinaryPhrase(flag: bool): (phrase: string)
    ensures flag <==> phrase == Multidisciplinary
    ensures !flag <==> phrase == SingleDiscipline
  {
    if flag then Multidisciplinary else SingleDiscipline
  }

  const QuestionsFileNote: string := "Utilize o conteúdo do arquivo anexo como base extra para as questões."
  const SlidesFileNote: string := "Utilize o conteúdo do arquivo anexo como base de informação principal para os slides."

  /** The line that refers to an attached file: the note, or nothing. */
  function FileNote(fileData: Option<Blob>, note: string): string {
    if fileData.Some? then note else ""
  }

  // The fixed wording of the prompts, indentation included.
  const SuggestQuestion: string :=
    "    \n    Quais são as 2 ou 3 mais pertinentes? Retorne APENAS os códigos/textos exatos das habilidades selecionadas, um por linha.\n  "
  const SuggestSkillsHeading: string := "    Dentre estas habilidades da BNCC:"
  const QuestionsStructure: string :=
    "\n\n      ESTRUTURA DA RESPOSTA:\n" +
    "      1. Cabeçalho Escolar Completo.\n" +
    "      2. Enunciados claros e objetivos, contextualizados.\n" +
    "      3. Para questões de múltipla escolha, use 5 alternativas (A a E).\n" +
    "      4. Gabarito detalhado e comentado ao final.\n    "
  const ManualDetailsLabel: string := "Detalhes Adicionais da BNCC solicitados pelo professor: "
  const QuestionsSkillsLabel: string := "Habilidades BNCC selecionadas: "
  const SlidesCountLabel: string := "Crie uma apresentação de slides COMPLETA e PRONTA PARA USO com exatamente "
  const SlidesDelimiterRequest: string := "IMPORTANTE: Formate cada slide separado por \"--- SLIDE [NÚMERO] ---\".\n"
  const SlidesMarkersRequest: string :=
    "      Cada slide deve ter um \"TÍTULO: [Texto]\" e \"CONTEÚDO: [Tópicos detalhados]\".\n    "
  const LessonPlanPeriodLabel: string := "\n    Crie um Plano de Aula estruturado para o período: "
  const LessonPlanStructure: string :=
    "\n    ESTRUTURA DO PLANO:\n" +
    "    1. Objetivos Gerais e Específicos.\n" +
    "    2. Sequência Didática detalhada por aula/dia.\n" +
    "    3. Metodologias e Recursos Necessários.\n" +
    "    4. Avaliação e Critérios.\n  "

  /** The prompt of `suggestBnccSkills`: the offered skills one per line, then the question. */
  function SuggestPrompt(grade: string, discipline: string, subject: string, available: seq<string>): (prompt: string)
    ensures JsText.Includes(prompt, "Com base no Ano: " + grade + ", Disciplina: " + discipline + " e Assunto: \"" + subject + "\".\n")
    ensures JsText.Includes(prompt, "\n    " + JsText.Join(available, "\n") + "\n")
  {
    var pieces := [
      "\n    ",
      "Com base no Ano: " + grade + ", Disciplina: " + discipline + " e Assunto: \"" + subject + "\".\n",
      SuggestSkillsHeading,
      "\n    " + JsText.Join(available, "\n") + "\n",
      SuggestQuestion
    ];
    JsText.ConcatIncludes(pieces, 1);
    JsText.ConcatIncludes(pieces, 3);
    JsText.Concat(pieces)
  }

  /** The text part of `generateQuestions`. */
  function QuestionsPrompt(p: QuestionParams): (prompt: string)
    ensures JsText.Includes(prompt, "Crie " + JsText.IntToString(p.count) + " questões para o nível: " + p.grade + ".\n")
    ensures JsText.Includes(prompt, QuestionsSkillsLabel + JsText.JoinOptional(p.bnccSkills, ", ") + ".\n")
    ensures JsText.Includes(prompt, ManualDetailsLabel + OrNenhum(p.bnccManualDetails) + ".\n")
    ensures p.fileData.Some? ==> JsText.Includes(prompt, QuestionsFileNote)
  {
    var pieces := [
      "\n      ",
      "Crie " + JsText.IntToString(p.count) + " questões para o nível: " + p.grade + ".\n",
      "      Disciplina: " + p.discipline + ".\n" +
      "      Assunto: \"" + p.subject + "\".\n" +
      "      Contexto Pedagógico: " + p.context + ".\n      ",
      QuestionsSkillsLabel + JsText.JoinOptional(p.bnccSkills, ", ") + ".\n",
      "      ",
      ManualDetailsLabel + OrNenhum(p.bnccManualDetails) + ".\n",
      "      Idioma: " + p.language + ".\n" +
      "      Outros detalhes: " + p.additionalDetails + ".\n" +
      "      \n      ",
      FileNote(p.fileData, QuestionsFileNote),
      QuestionsStructure
    ];
    JsText.ConcatIncludes(pieces, 1);
    JsText.ConcatIncludes(pieces, 3);
    JsText.ConcatIncludes(pieces, 5);
    JsText.ConcatIncludes(pieces, 7);
    JsText.Concat(pieces)
  }

  /** The text part of `generateSlidesOutline`; it asks for the delimiter the slide parser splits on. */
  function SlidesPrompt(p: SlideParams): (prompt: string)
    ensures JsText.Includes(prompt, SlidesCountLabel + JsText.IntToString(p.count) + " slides.\n")
    ensures JsText.Includes(prompt, "Habilidades BNCC: " + JsText.JoinOptional(p.bnccSkills, ", ") + ".\n")
    ensures JsText.Includes(prompt, SlidesDelimiterRequest)
    ensures p.fileData.Some? ==> JsText.Includes(prompt, SlidesFileNote)
  {
    var pieces := [
      "\n      ",
      SlidesCountLabel + JsText.IntToString(p.count) + " slides.\n",
      "      Assunto: \"" + p.subject + "\".\n" +
      "      Disciplina: " + p.discipline + ".\n" +
      "      Série/Ano: " + p.grade + ".\n" +
      "      Contexto da Turma: " + p.context + ".\n" +
      "      Duração estimada da aula: " + p.duration + ".\n" +
      "      Idioma: " + p.language + ".\n      ",
      "Habilidades BNCC: " + JsText.JoinOptional(p.bnccSkills, ", ") + ".\n",
      "      Detalhes adicionais: " + p.additionalDetails + ".\n" +
      "      \n      ",
      FileNote(p.fileData, SlidesFileNote),
      "\n\n      ",
      SlidesDelimiterRequest,
      SlidesMarkersRequest
    ];
    JsText.ConcatIncludes(pieces, 1);
    JsText.ConcatIncludes(pieces, 3);
    JsText.ConcatIncludes(pieces, 5);
    JsText.ConcatIncludes(pieces, 7);
    JsText.Concat(pieces)
  }

  /** The prompt of `generateLessonPlan`. */
  function LessonPlanPrompt(p: LessonPlanParams): (prompt: string)
    ensures JsText.Includes(prompt, "Planejamento Multidisciplinar: " + MultidisciplinaryPhrase(p.multidisciplinary) + ".\n")
    ensures JsText.Includes(prompt, "Dias da semana: " + JsText.Join(p.days, ", ") + ".\n")
    ensures JsText.Includes(prompt, "Habilidades BNCC: " + JsText.JoinOptional(p.bnccSkills, ", ") + ".\n")
    ensures JsText.Includes(prompt, "Detalhes Adicionais: " + OrNenhum(p.additionalDetails) + ".\n")
  {
    var pieces := [
      LessonPlanPeriodLabel + p.period + ".\n" +
      "    Ano de escolaridade: " + p.grade + ".\n" +
      "    Disciplina: " + p.discipline + ".\n    ",
      "Planejamento Multidisciplinar: " + MultidisciplinaryPhrase(p.multidisciplinary) + ".\n",
      "    ",
      "Dias da semana: " + JsText.Join(p.days, ", ") + ".\n",
      "    ",
      "Habilidades BNCC: " + JsText.JoinOptional(p.bnccSkills, ", ") + ".\n",
      "    ",
      "Detalhes Adicionais: " + OrNenhum(p.additionalDetails) + ".\n",
      LessonPlanStructure
    ];
    JsText.ConcatIncludes(pieces, 1);
    JsText.ConcatIncludes(pieces, 3);
    JsText.ConcatIncludes(pieces, 5);
    JsText.ConcatIncludes(pieces, 7);
    JsText.Concat(pieces)
  }

  /** The prompt of `generateThematicImage`. */
  function ImagePrompt(subject: string, discipline: string): string {
    ImageTheme + subject + "\" da disciplina de " + discipline + ImageStyle
  }

  const ImageTheme: string := "Uma ilustração didática e elegante para um slide escolar sobre o tema: \""
  const ImageStyle: string := ". Estilo limpo, acadêmico, sem textos confusos, cores suaves."

  // --------------------------------------------------------------- requests

  /** The parts `[textPart]`, with the file's inline data put in front (`unshift`) when there is a file. */
  function RequestParts(prompt: string, fileData: Option<Blob>): (parts: seq<Part>)
    ensures |parts| == if fileData.Some? then 2 else 1
    ensures parts[|parts| - 1] == Part(Some(prompt), None)
    ensures forall i :: 0 <= i < |parts| ==> (parts[i].text.Some? <==> i == |parts| - 1)
    ensures fileData.Some? ==> parts[0].inlineData == fileData
  {
    match fileData
    case None => [Part(Some(prompt), None)]
    case Some(file) => [Part(None, Some(Blob(file.mimeType, file.data)))] + [Part(Some(prompt), None)]
  }

  /** `contents = [textPart]; if (fileData) contents.unshift({inlineData})`. */
  method BuildParts(prompt: string, fileData: Option<Blob>) returns (contents: seq<Part>)
    ensures contents == RequestParts(prompt, fileData)
  {
    contents := [Part(Some(prompt), None)];
    if fileData.Some? {
      contents := [Part(None, Some(Blob(fileData.value.mimeType, fileData.value.data)))] + contents;
    }
  }

  function SuggestRequest(grade: string, discipline: string, subject: string, available: seq<string>): Request {
    Request([Part(Some(SuggestPrompt(grade, discipline, subject, available)), None)], Some(SystemInstruction), false)
  }

  function QuestionsRequest(p: QuestionParams): Request {
    Request(RequestParts(QuestionsPrompt(p), p.fileData), Some(SystemInstruction), p.webSearch)
  }

  function SlidesRequest(p: SlideParams): Request {
    Request(RequestParts(SlidesPrompt(p), p.fileData), Some(SystemInstruction), p.webSearch)
  }

  function LessonPlanRequest(p: LessonPlanParams): Request {
    Request([Part(Some(LessonPlanPrompt(p)), None)], Some(SystemInstruction), false)
  }

  function ImageRequest(subject: string, discipline: string): Request {
    Request([Part(Some(ImagePrompt(subject, discipline)), None)], None, false)
  }

  // ------------------------------------------------------ skill suggestions

  function NonEmpty(s: string): bool {
    |s| > 0
  }

  /** `text?.split('\n').map(s => s.trim()).filter(s => s.length > 0) || []`. */
  function SuggestionLines(text: Option<string>): (lines: seq<string>)
    ensures text.None? ==> lines == []
    ensures forall i :: 0 <= i < |lines| ==> lines[i] != [] && JsText.IsTrimmed(lines[i]) && '\n' !in lines[i]
  {
    match text
    case None => []
    case Some(t) =>
      var pieces := JsText.Split(t, '\n');
      var trimmed := Lists.Map(JsText.Trim, pieces);
      var lines := Lists.Filter(NonEmpty, trimmed);
      forall i | 0 <= i < |lines|
        ensures lines[i] != [] && JsText.IsTrimmed(lines[i]) && '\n' !in lines[i]
      {
        assert lines[i] in lines;
        var j :| 0 <= j < |trimmed| && trimmed[j] == lines[i];
        TrimmedLineHasNoBreak(pieces[j]);
      }
      lines
  }

  lemma {:induction false} TrimmedLineHasNoBreak(piece: string)
    requires '\n' !in piece
    ensures '\n' !in JsText.Trim(piece) && JsText.IsTrimmed(JsText.Trim(piece))
  {
    var r := JsText.Trim(piece);
    var o := JsText.TrimOffset(piece);
    forall k | 0 <= k < |r| ensures r[k] != '\n' {
      assert r[k] == piece[o + k];
    }
  }

  /** An empty reply text has no lines. */
  lemma {:induction false} SuggestionLinesOfEmpty()
    ensures SuggestionLines(Some([])) == []
  {
    assert JsText.Split([], '\n') == [[]];
    assert Lists.Map(JsText.Trim, [[]]) == [[]];
  }

  /** Lines that are non-empty, trimmed and free of line feeds come back unchanged from their join. */
  lemma {:induction false} SuggestionLinesOfJoin(lines: seq<string>)
    requires forall i :: 0 <= i < |lines| ==> lines[i] != [] && JsText.IsTrimmed(lines[i]) && '\n' !in lines[i]
    ensures SuggestionLines(Some(JsText.Join(lines, "\n"))) == lines
  {
    if lines == [] {
      SuggestionLinesOfEmpty();
    } else {
      JsText.JoinSplit(lines, '\n');
      MapTrimOfTrimmed(lines);
      Lists.FilterAll(NonEmpty, lines);
    }
  }

  lemma {:induction false} MapTrimOfTrimmed(lines: seq<string>)
    requires forall i :: 0 <= i < |lines| ==> JsText.IsTrimmed(lines[i])
    ensures Lists.Map(JsText.Trim, lines) == lines
  {
    var trimmed := Lists.Map(JsText.Trim, lines);
    forall i | 0 <= i < |lines| ensures trimmed[i] == lines[i] {
      JsText.TrimOfTrimmed(lines[i]);
    }
  }

  /** `suggestBnccSkills`: the reply's lines, and `[]` when the call fails; it never throws. */
  function SuggestBnccSkills(grade: string, discipline: string, subject: string, available: seq<string>, service: Service): (lines: seq<string>)
    ensures service(SuggestRequest(grade, discipline, subject, available)).Failure? ==> lines == []
    ensures service(SuggestRequest(grade, discipline, subject, available)).Success? ==>
      lines == SuggestionLines(service(SuggestRequest(grade, discipline, subject, available)).value.text)
    ensures forall i :: 0 <= i < |lines| ==> lines[i] != [] && JsText.IsTrimmed(lines[i])
  {
    match service(SuggestRequest(grade, discipline, subject, available))
    case Failure(_) => []
    case Success(reply) => SuggestionLines(reply.text)
  }

  // -------------------------------------------------------------- sources

  const QuestionsSourcesHeader: string := "\n\n### Fontes de Pesquisa (Validação Pedagógica):\n"
  const SlidesSourcesHeader: string := "\n\n### Fontes de Pesquisa Consultadas:\n"

  function HasWeb(chunk: Chunk): bool {
    chunk.web.Some?
  }

  /** `` `\n- [${web.title}](${web.uri})` ``, where a missing title or uri renders as "undefined". */
  function LinkOf(chunk: Chunk): (link: string)
    ensures link == [] <==> chunk.web.None?
    ensures chunk.web.Some? ==> "\n- [" <= link
  {
    match chunk.web
    case Some(w) => "\n- [" + JsText.Show(w.title) + "](" + JsText.Show(w.uri) + ")"
    case None => ""
  }

  /** `chunks.filter(c => c.web).map(LinkOf).join('')`: empty exactly when no chunk has a web source. */
  function Links(chunks: seq<Chunk>): (links: string)
    ensures links == [] <==> !HasWebChunk(chunks)
  {
    JoinedLinksEmpty(chunks);
    JsText.Join(Lists.Map(LinkOf, Lists.Filter(HasWeb, chunks)), "")
  }

  predicate HasWebChunk(chunks: seq<Chunk>) {
    exists i :: 0 <= i < |chunks| && chunks[i].web.Some?
  }

  /** The joined links of the web chunks are empty exactly when no chunk has a web source. */
  lemma {:induction false} JoinedLinksEmpty(chunks: seq<Chunk>)
    ensures JsText.Join(Lists.Map(LinkOf, Lists.Filter(HasWeb, chunks)), "") == [] <==> !HasWebChunk(chunks)
  {
    var webs := Lists.Filter(HasWeb, chunks);
    var links := Lists.Map(LinkOf, webs);
    forall i | 0 <= i < |links| ensures links[i] != [] {
      assert webs[i] in webs;
    }
    JsText.JoinWithoutSeparatorEmpty(links);
    if HasWebChunk(chunks) {
      var i :| 0 <= i < |chunks| && chunks[i].web.Some?;
      Lists.FilterMembership(HasWeb, chunks, chunks[i]);
      assert links[0] != [];
    } else {
      Lists.FilterNone(HasWeb, chunks);
    }
  }

  /** Links follow the chunk order: the links of two runs of chunks are the links of each, in turn. */
  lemma {:induction false} LinksConcat(a: seq<Chunk>, b: seq<Chunk>)
    ensures Links(a + b) == Links(a) + Links(b)
  {
    Lists.FilterConcat(HasWeb, a, b);
    Lists.MapConcat(LinkOf, Lists.Filter(HasWeb, a), Lists.Filter(HasWeb, b));
    JsText.JoinWithoutSeparatorConcat(Lists.Map(LinkOf, Lists.Filter(HasWeb, a)), Lists.Map(LinkOf, Lists.Filter(HasWeb, b)));
  }

  /** One chunk gives its own link, or nothing when it has no web source. */
  lemma {:induction false} LinksOfOne(chunk: Chunk)
    ensures Links([chunk]) == LinkOf(chunk)
    ensures chunk.web.None? ==> Links([chunk]) == []
  {
    assert [chunk][1..] == [];
  }

  /**
   * The text a search-enabled generator returns: the reply's text, followed
   * by the header and the links when search is on, the chunks are an array
   * and some chunk has a web source.
   */
  function WithSources(text: string, webSearch: bool, chunks: Option<seq<Chunk>>, header: string): (r: string)
    ensures webSearch && chunks.Some? && HasWebChunk(chunks.value) ==>
      r == text + header + Links(chunks.value) && Links(chunks.value) != []
    ensures !(webSearch && chunks.Some? && HasWebChunk(chunks.value)) ==> r == text
  {
    if webSearch && chunks.Some? then
      var links := Links(chunks.value);
      if links != [] then text + header + links else text
    else text
  }

  /** `let text = response.text || ""; ... if (links) text += header + links`. */
  method AppendSources(reply: Reply, webSearch: bool, header: string) returns (text: string)
    ensures text == WithSources(reply.text.GetOr(""), webSearch, reply.chunks, header)
  {
    text := reply.text.GetOr("");
    if webSearch && reply.chunks.Some? {
      var links := Links(reply.chunks.value);
      if links != [] {
        text := text + header + links;
      }
    }
  }

  /** A generator's outcome: the service error rethrown, or the text with its sources section. */
  function Sourced(reply: Result<Reply, string>, webSearch: bool, header: string): (r: Result<string, string>)
    ensures r.Failure? <==> reply.Failure?
    ensures reply.Failure? ==> r.error == reply.error
    ensures reply.Success? ==> reply.value.text.GetOr("") <= r.value
  {
    match reply
    case Failure(e) => Failure(e)
    case Success(x) => Success(WithSources(x.text.GetOr(""), webSearch, x.chunks, header))
  }

  /** `generateQuestions`: it rethrows the service error; otherwise the text with any sources section. */
  method GenerateQuestions(p: QuestionParams, service: Service) returns (r: Result<string, string>)
    ensures r == Sourced(service(QuestionsRequest(p)), p.webSearch, QuestionsSourcesHeader)
  {
    var contents := BuildParts(QuestionsPrompt(p), p.fileData);
    var reply := service(Request(contents, Some(SystemInstruction), p.webSearch));
    match reply
    case Failure(e) =>
      r := Failure(e);
    case Success(x) =>
      var text := AppendSources(x, p.webSearch, QuestionsSourcesHeader);
      r := Success(text);
  }

  /** `generateSlidesOutline`: as `generateQuestions`, with its own prompt and header. */
  method GenerateSlidesOutline(p: SlideParams, service: Service) returns (r: Result<string, string>)
    ensures r == Sourced(service(SlidesRequest(p)), p.webSearch, SlidesSourcesHeader)
  {
    var contents := BuildParts(SlidesPrompt(p), p.fileData);
    var reply := service(Request(contents, Some(SystemInstruction), p.webSearch));
    match reply
    case Failure(e) =>
      r := Failure(e);
    case Success(x) =>
      var text := AppendSources(x, p.webSearch, SlidesSourcesHeader);
      r := Success(text);
  }

  /** Without search, or without any web chunk, a generator returns the reply's text unchanged. */
  lemma {:induction false} SourcedWithoutSearch(reply: Result<Reply, string>, webSearch: bool, header: string)
    requires reply.Success?
    requires !webSearch || reply.value.chunks.None? || !HasWebChunk(reply.value.chunks.value)
    ensures Sourced(reply, webSearch, header) == Success(reply.value.text.GetOr(""))
  {
  }

  const LessonPlanFallback: string := "Erro ao gerar plano de aula."

  /** `generateLessonPlan`: it rethrows the service error; an empty or missing text becomes the fallback message. */
  function GenerateLessonPlan(p: LessonPlanParams, service: Service): (r: Result<string, string>)
    ensures service(LessonPlanRequest(p)).Failure? ==> r == Failure(service(LessonPlanRequest(p)).error)
    ensures r.Success? ==> r.value != []
    ensures service(LessonPlanRequest(p)).Success? ==>
      var text := service(LessonPlanRequest(p)).value.text;
      r == Success(if text.Some? && text.value != [] then text.value else LessonPlanFallback)
  {
    match service(LessonPlanRequest(p))
    case Failure(e) => Failure(e)
    case Success(reply) =>
      if reply.text.Some? && reply.text.value != [] then Success(reply.text.value) else Success(LessonPlanFallback)
  }

  // ------------------------------------------------------------------ image

  /** `` `data:${mimeType};base64,${data}` ``. */
  function DataUrl(blob: Blob): (url: string)
    ensures "data:" <= url
    ensures |JsText.Show(blob.data)| <= |url| && url[|url| - |JsText.Show(blob.data)|..] == JsText.Show(blob.data)
  {
    "data:" + JsText.Show(blob.mimeType) + ";base64," + JsText.Show(blob.data)
  }

  /** The data URL of the first part that carries inline data, if any. */
  function FirstImageUrl(parts: seq<Part>): (url: Option<string>)
    ensures url.None? <==> forall i :: 0 <= i < |parts| ==> parts[i].inlineData.None?
    ensures url.Some? ==> exists i :: 0 <= i < |parts| && FirstInline(parts, i) && url.value == DataUrl(parts[i].inlineData.value)
    decreases |parts|
  {
    if parts == [] then None
    else if parts[0].inlineData.Some? then
      assert FirstInline(parts, 0);
      Some(DataUrl(parts[0].inlineData.value))
    else
      var rest := FirstImageUrl(parts[1..]);
      if rest.Some? then
        var i :| 0 <= i < |parts[1..]| && FirstInline(parts[1..], i) && rest.value == DataUrl(parts[1..][i].inlineData.value);
        assert FirstInline(parts, i + 1);
        rest
      else
        assert forall i :: 1 <= i < |parts| ==> parts[i] == parts[1..][i - 1];
        rest
  }

  /** Part `i` is the first part with inline data. */
  predicate FirstInline(parts: seq<Part>, i: int) {
    0 <= i < |parts| && parts[i].inlineData.Some? && forall j :: 0 <= j < i ==> parts[j].inlineData.None?
  }

  /** The image a reply yields: none when the call failed or the reply has no parts. */
  function ImageOf(reply: Result<Reply, string>): (url: Option<string>)
    ensures url.None? <==>
      || reply.Failure?
      || reply.value.parts.None?
      || forall i :: 0 <= i < |reply.value.parts.value| ==> reply.value.parts.value[i].inlineData.None?
    ensures url.Some? ==> "data:" <= url.value
  {
    if reply.Success? && reply.value.parts.Some? then FirstImageUrl(reply.value.parts.value) else None
  }

  /** `generateThematicImage`: returns from inside the loop at the first part with inline data, else null. */
  method GenerateThematicImage(subject: string, discipline: string, service: Service) returns (url: Option<string>)
    ensures url == ImageOf(service(ImageRequest(subject, discipline)))
  {
    var reply := service(Request([Part(Some(ImagePrompt(subject, discipline)), None)], None, false));
    if reply.Failure? || reply.value.parts.None? {
      return None;
    }
    var parts := reply.value.parts.value;
    var i := 0;
    while i < |parts|
      invariant 0 <= i <= |parts|
      invariant FirstImageUrl(parts[i..]) == FirstImageUrl(parts)
    {
      if parts[i].inlineData.Some? {
        return Some(DataUrl(parts[i].inlineData.value));
      }
      assert parts[i..][1..] == parts[i + 1..];
      i := i + 1;
    }
    return None;
  }

  /** Reading an image's data URL the way the upload handler reads a file gives back its base64 data. */
  lemma {:induction false} DataUrlPayload(mimeType: string, data: string)
    requires ',' !in mimeType && ',' !in data
    ensures FormRules.AttachmentData(DataUrl(Blob(Some(mimeType), Some(data)))) == Some(data)
  {
    var header := "data:" + mimeType + ";base64";
    assert DataUrl(Blob(Some(mimeType), Some(data))) == header + "," + data;
    assert ',' !in header by {
      assert header == "data:" + mimeType + ";base64";
    }
    FormRules.AttachmentDataOfDataUrl(header, data);
  }

  // ----------------------------------------------------------------- client

  // The functions the module exports, once its `ai` client is bound to a service.

  function SuggestClient(service: Service): (f: (string, string, string, seq<string>) -> seq<string>)
    ensures forall g, d, s, a :: f(g, d, s, a) == SuggestBnccSkills(g, d, s, a, service)
  {
    (g, d, s, a) => SuggestBnccSkills(g, d, s, a, service)
  }

  function QuestionsClient(service: Service): (f: QuestionParams -> Result<string, string>)
    ensures forall p :: f(p) == Sourced(service(QuestionsRequest(p)), p.webSearch, QuestionsSourcesHeader)
  {
    p => Sourced(service(QuestionsRequest(p)), p.webSearch, QuestionsSourcesHeader)
  }

  function SlidesClient(service: Service): (f: SlideParams -> Result<string, string>)
    ensures forall p :: f(p) == Sourced(service(SlidesRequest(p)), p.webSearch, SlidesSourcesHeader)
  {
    p => Sourced(service(SlidesRequest(p)), p.webSearch, SlidesSourcesHeader)
  }

  function LessonPlanClient(service: Service): (f: LessonPlanParams -> Result<string, string>)
    ensures forall p :: f(p) == GenerateLessonPlan(p, service)
    ensures forall p :: f(p).Success? ==> f(p).value != []
  {
    p => GenerateLessonPlan(p, service)
  }

  function ImageClient(service: Service): (f: (string, string) -> Option<string>)
    ensures forall s, d :: f(s, d) == ImageOf(service(ImageRequest(s, d)))
  {
    (s, d) => ImageOf(service(ImageRequest(s, d)))
  }
}
