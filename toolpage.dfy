/**
 * The tool page (pages/ToolPage.tsx) as an object whose fields are the
 * component's state slots: the three forms (questionnaire, slides, lesson
 * plan), each with its skill picker, and the generated output.
 *
 * Each handler is a method. The suggestion handler awaits the service
 * between setting and clearing its busy flag, so it is split in two: the
 * part before the `await` and the part after it. Other handlers may run in
 * between, as they can in the browser. The generators run to completion in
 * one step.
 */
module ToolPage {
  import opened Wrappers
  import Catalog
  import Skills
  import FormRules
  import SlideParser
  import Gemini

  /** Which form a handler acts on: `'Q'`, `'S'` or `'LP'`. */
  datatype Target = Q | S | LP

  /** A file as the upload handler stores it: its name, the text after the first comma of its data URL, its type. */
  datatype Attachment = Attachment(name: string, data: Option<string>, mimeType: string)

  /**
   * The skill picker of one form: the grade and discipline selects and the
   * ticked skills. The skills it offers are not stored: the effect that
   * stores them always sets them to the catalogue slice of the two selects,
   * so the model computes that slice where it is read (`Available`).
   */
  datatype Picker = Picker(grade: string, discipline: string, selected: Skills.Selection)

  datatype QuestionForm = QuestionForm(
    subject: string, countType: FormRules.CountType, countCustom: int, context: string,
    manualDetails: string, language: string, details: string, webSearch: bool,
    file: Option<Attachment>)

  datatype SlideForm = SlideForm(
    subject: string, countType: FormRules.CountType, countCustom: int, duration: string,
    context: string, details: string, language: string, webSearch: bool,
    includeImages: bool, file: Option<Attachment>)

  datatype LessonPlanForm = LessonPlanForm(
    period: string, subject: string, multidisciplinary: bool, days: FormRules.DayMap)

  /** What the handler captured before awaiting the suggestion service. */
  datatype PendingSuggestion = PendingSuggestion(
    target: Target, grade: string, discipline: string, subject: string, available: seq<string>)

  /** What the page shows: a form (chosen by the tool id), the slide deck, or the result text. */
  datatype Screen = QuestionsScreen | SlidesScreen | LessonPlanScreen | UnderDevelopment | SlideDeck | ResultText

  /**
   * The grade select: a new grade re-runs the effect, which loads the slice
   * for it and clears the ticked skills; choosing the same grade changes
   * no state, so the effect does not run.
   */
  function WithGrade(p: Picker, grade: string): (r: Picker)
    ensures r.grade == grade && r.discipline == p.discipline
    ensures r.selected == if grade == p.grade then p.selected else []
  {
    if grade == p.grade then p else Picker(grade, p.discipline, [])
  }

  /** The discipline select, with the same effect. */
  function WithDiscipline(p: Picker, discipline: string): (r: Picker)
    ensures r.discipline == discipline && r.grade == p.grade
    ensures r.selected == if discipline == p.discipline then p.selected else []
  {
    if discipline == p.discipline then p else Picker(p.grade, discipline, [])
  }

  /** Choosing the value a select already shows changes nothing; choosing twice is choosing once. */
  lemma {:induction false} SelectIdempotent(p: Picker, grade: string, discipline: string)
    ensures WithGrade(WithGrade(p, grade), grade) == WithGrade(p, grade)
    ensures WithDiscipline(WithDiscipline(p, discipline), discipline) == WithDiscipline(p, discipline)
    ensures WithGrade(p, p.grade) == p && WithDiscipline(p, p.discipline) == p
  {
  }

  const DefaultLessonSubject: string := "Planejamento de aulas"

  // -------------------------------------------------------------- defaults

  /** The questionnaire form as the page opens: ten questions, in Brazilian Portuguese. */
  const DefaultQuestions := QuestionForm("", FormRules.Ten, 10, "", "", "Português (Brasil)", "", false, None)
  /** The slide form as the page opens: ten slides for a 50-minute class. */
  const DefaultSlideForm := SlideForm("", FormRules.Ten, 10, "50 min", "", "", "Português (Brasil)", false, false, None)
  /** The lesson-plan form as the page opens: the next two weeks, Monday to Friday. */
  const DefaultLessonPlan := LessonPlanForm("Próximas 2 semanas", "", false, FormRules.DefaultDays)
  /** The pickers open on Português, the questionnaire's in the 5º ano and the others in the 6º ano. */
  const FifthGrade: string := "5º ano"
  const SixthGrade: string := "6º ano"
  const FirstDiscipline: string := "Português"

  /** The default pickers show options of the two selects. */
  lemma {:induction false} DefaultPickersAreOptions()
    ensures FifthGrade == Catalog.AnosEscolaridade[5] && SixthGrade == Catalog.AnosEscolaridade[6]
    ensures FirstDiscipline == Catalog.Disciplinas[0]
  {
    Catalog.SelectOptions();
  }

  /** The default forms keep the page's invariant: counts in range, distinct days. */
  lemma {:induction false} DefaultFormsValid()
    ensures FormRules.MinCount <= DefaultQuestions.countCustom <= FormRules.MaxCount
    ensures FormRules.MinCount <= DefaultSlideForm.countCustom <= FormRules.MaxCount
    ensures FormRules.DistinctKeys(DefaultLessonPlan.days)
  {
    FormRules.DefaultDaysDistinct();
  }
  const GenerationFallback: string := "Erro na geração."

  /** The request data of an attachment. */
  function FileData(file: Option<Attachment>): (data: Option<Gemini.Blob>)
    ensures data.Some? <==> file.Some?
    ensures file.Some? ==> data.value.data == file.value.data && data.value.mimeType == Some(file.value.mimeType)
  {
    match file
    case None => None
    case Some(f) => Some(Gemini.Blob(Some(f.mimeType), f.data))
  }

  /** What the questionnaire shows for a generation: the text, or "Erro na geração." for an empty one; nothing on failure. */
  function Shown(output: Result<string, string>): (shown: Option<string>)
    ensures shown.Some? <==> output.Success?
    ensures shown.Some? ==> shown.value != []
    ensures output.Success? && output.value != [] ==> shown == Some(output.value)
  {
    match output
    case Failure(_) => None
    case Success(text) => Some(if text == [] then GenerationFallback else text)
  }

  class Page {
    const toolId: string
    const catalog: Catalog.Catalogue := Catalog.BnccData
    /** The component's `parseSlides` closure. */
    const parseSlides: string -> seq<SlideParser.Slide>
    // The service functions the page imports, over one model client.
    const suggestBnccSkills: (string, string, string, seq<string>) -> seq<string>
    const generateQuestions: Gemini.QuestionParams -> Result<string, string>
    const generateSlidesOutline: Gemini.SlideParams -> Result<string, string>
    const generateLessonPlan: Gemini.LessonPlanParams -> Result<string, string>
    const generateThematicImage: (string, string) -> Option<string>

    var loading: bool
    var suggestingSkills: bool
    var result: Option<string>
    var slides: seq<SlideParser.Slide>
    var generatedImages: seq<string>

    var questions: QuestionForm
    var slideForm: SlideForm
    var lessonPlan: LessonPlanForm

    var questionSkills: Picker
    var slideSkills: Picker
    var planSkills: Picker

    /** The page's invariant: the custom counts are in range, the days are keyed once, a shown result is not empty. */
    ghost predicate Valid()
      reads this`questions, this`slideForm, this`lessonPlan, this`result
    {
      && FormRules.MinCount <= questions.countCustom <= FormRules.MaxCount
      && FormRules.MinCount <= slideForm.countCustom <= FormRules.MaxCount
      && FormRules.DistinctKeys(lessonPlan.days)
      && (result.Some? ==> result.value != [])
      && (forall p :: generateLessonPlan(p).Success? ==> generateLessonPlan(p).value != [])
    }

    function PickerOf(t: Target): Picker
      reads this`questionSkills, this`slideSkills, this`planSkills
    {
      match t
      case Q => questionSkills
      case S => slideSkills
      case LP => planSkills
    }

    /** The skills a form's picker offers: the catalogue slice of its discipline and grade. */
    function Available(t: Target): (skills: seq<string>)
      reads this`questionSkills, this`slideSkills, this`planSkills
      ensures forall s :: s in skills <==>
        PickerOf(t).discipline in catalog && PickerOf(t).grade in catalog[PickerOf(t).discipline] &&
        s in catalog[PickerOf(t).discipline][PickerOf(t).grade]
      ensures !(PickerOf(t).discipline in catalog && PickerOf(t).grade in catalog[PickerOf(t).discipline]) ==> skills == []
    {
      Skills.Lookup(catalog, PickerOf(t).discipline, PickerOf(t).grade)
    }

    /** The page on mount: the form defaults, then the three effects load the default slices. */
    constructor (toolId: string, service: Gemini.Service)
      ensures this.toolId == toolId && parseSlides == SlideParser.ParseSlides
      ensures suggestBnccSkills == Gemini.SuggestClient(service) && generateQuestions == Gemini.QuestionsClient(service)
      ensures generateSlidesOutline == Gemini.SlidesClient(service) && generateLessonPlan == Gemini.LessonPlanClient(service)
      ensures generateThematicImage == Gemini.ImageClient(service)
      ensures !loading && !suggestingSkills && result == None && slides == [] && generatedImages == []
      ensures questions == DefaultQuestions && slideForm == DefaultSlideForm && lessonPlan == DefaultLessonPlan
      ensures questionSkills == Picker(FifthGrade, FirstDiscipline, [])
      ensures slideSkills == Picker(SixthGrade, FirstDiscipline, []) && planSkills == Picker(SixthGrade, FirstDiscipline, [])
      ensures Valid()
    {
      this.toolId := toolId;
      parseSlides := SlideParser.ParseSlides;
      suggestBnccSkills := Gemini.SuggestClient(service);
      generateQuestions := Gemini.QuestionsClient(service);
      generateSlidesOutline := Gemini.SlidesClient(service);
      generateLessonPlan := Gemini.LessonPlanClient(service);
      generateThematicImage := Gemini.ImageClient(service);
      loading := false;
      suggestingSkills := false;
      result := None;
      slides := [];
      generatedImages := [];
      questions := DefaultQuestions;
      slideForm := DefaultSlideForm;
      lessonPlan := DefaultLessonPlan;
      questionSkills := Picker(FifthGrade, FirstDiscipline, []);
      slideSkills := Picker(SixthGrade, FirstDiscipline, []);
      planSkills := Picker(SixthGrade, FirstDiscipline, []);
      DefaultFormsValid();
    }

    /** Replaces one form's picker and leaves the other two alone. */
    method SetPicker(t: Target, p: Picker)
      modifies this`questionSkills, this`slideSkills, this`planSkills
      ensures PickerOf(t) == p
      ensures forall u :: u != t ==> PickerOf(u) == old(PickerOf(u))
    {
      match t
      case Q => questionSkills := p;
      case S => slideSkills := p;
      case LP => planSkills := p;
    }

    /** A grade select changes: a new grade clears the form's ticked skills. */
    method SetGrade(t: Target, grade: string)
      modifies this`questionSkills, this`slideSkills, this`planSkills
      ensures PickerOf(t) == WithGrade(old(PickerOf(t)), grade)
      ensures forall u :: u != t ==> PickerOf(u) == old(PickerOf(u))
    {
      SetPicker(t, WithGrade(PickerOf(t), grade));
    }

    /** A discipline select changes, with the same effect. */
    method SetDiscipline(t: Target, discipline: string)
      modifies this`questionSkills, this`slideSkills, this`planSkills
      ensures PickerOf(t) == WithDiscipline(old(PickerOf(t)), discipline)
      ensures forall u :: u != t ==> PickerOf(u) == old(PickerOf(u))
    {
      SetPicker(t, WithDiscipline(PickerOf(t), discipline));
    }

    /** A skill checkbox: ticking appends the skill, unticking removes every copy of it. */
    method OnSkillCheckbox(t: Target, skill: string, checked: bool)
      modifies this`questionSkills, this`slideSkills, this`planSkills
      ensures PickerOf(t) == old(PickerOf(t)).(selected := Skills.OnCheckbox(old(PickerOf(t)).selected, skill, checked))
      ensures forall u :: u != t ==> PickerOf(u) == old(PickerOf(u))
    {
      var p := PickerOf(t);
      SetPicker(t, p.(selected := Skills.OnCheckbox(p.selected, skill, checked)));
    }

    function Subject(t: Target): string
      reads this`questions, this`slideForm, this`lessonPlan
    {
      match t
      case Q => questions.subject
      case S => slideForm.subject
      case LP => lessonPlan.subject
    }

    /** A subject field. */
    method SetSubject(t: Target, subject: string)
      requires Valid()
      modifies this`questions, this`slideForm, this`lessonPlan
      ensures Valid()
      ensures questions == if t == Q then old(questions).(subject := subject) else old(questions)
      ensures slideForm == if t == S then old(slideForm).(subject := subject) else old(slideForm)
      ensures lessonPlan == if t == LP then old(lessonPlan).(subject := subject) else old(lessonPlan)
    {
      match t
      case Q => questions := questions.(subject := subject);
      case S => slideForm := slideForm.(subject := subject);
      case LP => lessonPlan := lessonPlan.(subject := subject);
    }

    /** A count button of the questionnaire or the slides form. */
    method SetCountType(t: Target, countType: FormRules.CountType)
      requires t != LP
      requires Valid()
      modifies this`questions, this`slideForm
      ensures Valid()
      ensures questions == if t == Q then old(questions).(countType := countType) else old(questions)
      ensures slideForm == if t == S then old(slideForm).(countType := countType) else old(slideForm)
    {
      if t == Q {
        questions := questions.(countType := countType);
      } else {
        slideForm := slideForm.(countType := countType);
      }
    }

    /** The custom count field stores the clamped number, so it stays in [1, 50]. */
    method SetCustomCount(t: Target, raw: string)
      requires t != LP
      requires Valid()
      modifies this`questions, this`slideForm
      ensures Valid()
      ensures questions == if t == Q then old(questions).(countCustom := FormRules.ClampCount(raw)) else old(questions)
      ensures slideForm == if t == S then old(slideForm).(countCustom := FormRules.ClampCount(raw)) else old(slideForm)
    {
      var n := FormRules.ClampCount(raw);
      if t == Q {
        questions := questions.(countCustom := n);
      } else {
        slideForm := slideForm.(countCustom := n);
      }
    }

    /** The web-search switch of the questionnaire or the slides form. */
    method ToggleWebSearch(t: Target)
      requires t != LP
      requires Valid()
      modifies this`questions, this`slideForm
      ensures Valid()
      ensures questions == if t == Q then old(questions).(webSearch := !old(questions.webSearch)) else old(questions)
      ensures slideForm == if t == S then old(slideForm).(webSearch := !old(slideForm.webSearch)) else old(slideForm)
    {
      if t == Q {
        questions := questions.(webSearch := !questions.webSearch);
      } else {
        slideForm := slideForm.(webSearch := !slideForm.webSearch);
      }
    }

    /** The multidisciplinary switch of the lesson plan. */
    method ToggleMultidisciplinary()
      requires Valid()
      modifies this`lessonPlan
      ensures Valid()
      ensures lessonPlan == old(lessonPlan).(multidisciplinary := !old(lessonPlan.multidisciplinary))
    {
      lessonPlan := lessonPlan.(multidisciplinary := !lessonPlan.multidisciplinary);
    }

    /** A week-day checkbox of the lesson plan; the days stay keyed once. */
    method ToggleDay(day: string)
      requires Valid()
      modifies this`lessonPlan
      ensures Valid()
      ensures lessonPlan == old(lessonPlan).(days := FormRules.ToggleDay(old(lessonPlan.days), day))
    {
      FormRules.ToggleKeepsDistinct(lessonPlan.days, day);
      lessonPlan := lessonPlan.(days := FormRules.ToggleDay(lessonPlan.days, day));
    }

    /** The upload handler once the reader has the file's data URL: it keeps the text after the first comma. */
    method AttachFile(t: Target, name: string, dataUrl: string, mimeType: string)
      requires t != LP
      requires Valid()
      modifies this`questions, this`slideForm
      ensures Valid()
      ensures var file := Some(Attachment(name, FormRules.AttachmentData(dataUrl), mimeType));
        && questions == (if t == Q then old(questions).(file := file) else old(questions))
        && slideForm == (if t == S then old(slideForm).(file := file) else old(slideForm))
    {
      var file := Attachment(name, FormRules.AttachmentData(dataUrl), mimeType);
      if t == Q {
        questions := questions.(file := Some(file));
      } else {
        slideForm := slideForm.(file := Some(file));
      }
    }

    /** The subject a suggestion asks about: the lesson plan falls back to "Planejamento de aulas". */
    function SuggestionSubject(t: Target): (subject: string)
      reads this`questions, this`slideForm, this`lessonPlan
      ensures subject == [] ==> t != LP && Subject(t) == []
      ensures subject != Subject(t) ==> t == LP && Subject(LP) == [] && subject == DefaultLessonSubject
    {
      if t == LP && lessonPlan.subject == [] then DefaultLessonSubject else Subject(t)
    }

    /**
     * The `disabled` guard of a form's suggestion button, inverted: no
     * suggestion is running and the form's subject is filled in. From the
     * button the lesson plan's fallback subject is never used.
     */
    predicate SuggestEnabled(t: Target)
      reads this`suggestingSkills, this`questions, this`slideForm, this`lessonPlan
      ensures SuggestEnabled(t) <==> !suggestingSkills && Subject(t) != []
      ensures SuggestEnabled(t) ==> SuggestionSubject(t) == Subject(t)
    {
      !suggestingSkills && Subject(t) != []
    }

    /**
     * The `disabled` guard of a form's generate button, inverted: nothing is
     * generating, and for the questionnaire and the slides the subject is
     * filled in; the lesson plan's button checks only the busy flag.
     */
    predicate GenerateEnabled(t: Target)
      reads this`loading, this`questions, this`slideForm, this`lessonPlan
      ensures GenerateEnabled(t) ==> !loading
      ensures t != LP ==> (GenerateEnabled(t) <==> !loading && Subject(t) != [])
      ensures t == LP ==> (GenerateEnabled(t) <==> !loading)
    {
      !loading && (t == LP || Subject(t) != [])
    }

    /**
     * The suggestion handler up to its `await`: for the questionnaire with an
     * empty subject it does nothing; otherwise it raises the busy flag and
     * captures what the call is made with.
     */
    method StartSuggestion(t: Target) returns (pending: Option<PendingSuggestion>)
      modifies this`suggestingSkills
      ensures t == Q && questions.subject == [] ==> pending == None && suggestingSkills == old(suggestingSkills)
      ensures !(t == Q && questions.subject == []) ==>
        suggestingSkills && pending == Some(PendingSuggestion(t, PickerOf(t).grade, PickerOf(t).discipline, SuggestionSubject(t), Available(t)))
    {
      if t == Q && questions.subject == [] {
        return None;
      }
      var p := PickerOf(t);
      pending := Some(PendingSuggestion(t, p.grade, p.discipline, SuggestionSubject(t), Available(t)));
      suggestingSkills := true;
    }

    /**
     * The suggestion handler after its `await`: the form's ticked skills become
     * the final selection over the captured list, and the busy flag drops,
     * whatever the service did.
     */
    method FinishSuggestion(pending: PendingSuggestion)
      modifies this`questionSkills, this`slideSkills, this`planSkills, this`suggestingSkills
      ensures !suggestingSkills
      ensures PickerOf(pending.target) == old(PickerOf(pending.target)).(selected := Skills.FinalSelection(
        suggestBnccSkills(pending.grade, pending.discipline, pending.subject, pending.available), pending.available))
      ensures forall u :: u != pending.target ==> PickerOf(u) == old(PickerOf(u))
    {
      var suggested := suggestBnccSkills(pending.grade, pending.discipline, pending.subject, pending.available);
      var finalSelection := Skills.FinalSelection(suggested, pending.available);
      var p := PickerOf(pending.target);
      SetPicker(pending.target, p.(selected := finalSelection));
      suggestingSkills := false;
    }

    /** The parameters `handleGenerateQuestions` sends. */
    function QuestionParams(): (p: Gemini.QuestionParams)
      reads this`questions, this`questionSkills
      ensures FormRules.MinCount <= questions.countCustom <= FormRules.MaxCount ==>
        FormRules.MinCount <= p.count <= FormRules.MaxCount
      ensures p.grade == questionSkills.grade && p.discipline == questionSkills.discipline
      ensures p.bnccSkills == questionSkills.selected
      ensures p.fileData.Some? <==> questions.file.Some?
    {
      Gemini.QuestionParams(
        questionSkills.grade, questions.subject, FormRules.FinalCount(questions.countType, questions.countCustom),
        questionSkills.discipline, questions.context, questions.language, questionSkills.selected,
        Some(questions.manualDetails), questions.details, questions.webSearch, FileData(questions.file))
    }

    /** The parameters `handleGenerateSlides` sends. */
    function SlideParams(): (p: Gemini.SlideParams)
      reads this`slideForm, this`slideSkills
      ensures FormRules.MinCount <= slideForm.countCustom <= FormRules.MaxCount ==>
        FormRules.MinCount <= p.count <= FormRules.MaxCount
      ensures p.grade == slideSkills.grade && p.discipline == slideSkills.discipline
      ensures p.bnccSkills == slideSkills.selected
      ensures p.fileData.Some? <==> slideForm.file.Some?
    {
      Gemini.SlideParams(
        slideSkills.discipline, slideSkills.grade, slideForm.subject,
        FormRules.FinalCount(slideForm.countType, slideForm.countCustom), slideForm.duration,
        slideForm.language, slideSkills.selected, slideForm.context, slideForm.details,
        slideForm.webSearch, slideForm.includeImages, FileData(slideForm.file))
    }

    /** The parameters `handleGenerateLessonPlanAction` sends: no subject and no additional details. */
    function LessonPlanParams(): (p: Gemini.LessonPlanParams)
      reads this`lessonPlan, this`planSkills
      ensures FormRules.DistinctKeys(lessonPlan.days) ==>
        forall d :: d in p.days <==> d in FormRules.Keys(lessonPlan.days) && FormRules.Value(lessonPlan.days, d)
      ensures p.grade == planSkills.grade && p.discipline == planSkills.discipline
      ensures p.bnccSkills == planSkills.selected && p.additionalDetails == None
    {
      FormRules.SelectedDaysExactly(lessonPlan.days);
      Gemini.LessonPlanParams(
        lessonPlan.period, planSkills.grade, planSkills.discipline, lessonPlan.multidisciplinary,
        FormRules.SelectedDays(lessonPlan.days), planSkills.selected, None)
    }

    /**
     * `handleGenerateQuestions`: the result is the generated text, or
     * "Erro na geração." when it is empty; it stays cleared when the service fails.
     */
    method GenerateQuestions()
      requires Valid()
      modifies this`loading, this`result
      ensures Valid()
      ensures result == Shown(generateQuestions(QuestionParams()))
      ensures !loading
    {
      loading := true;
      result := None;
      var output := generateQuestions(QuestionParams());
      result := Shown(output);
      loading := false;
    }

    /**
     * `handleGenerateSlides`: a non-empty text becomes the result and is parsed
     * into slides; when images are asked for and the outline call did not
     * fail, the image found, if any, is kept. A failure leaves all three cleared.
     */
    method GenerateSlides()
      requires Valid()
      modifies this`loading, this`result, this`slides, this`generatedImages
      ensures Valid()
      ensures var out := generateSlidesOutline(SlideParams());
        && (out.Failure? || out.value == [] ==> result == None && slides == [])
        && (out.Success? && out.value != [] ==> result == Some(out.value) && slides == parseSlides(out.value))
      ensures var image := generateThematicImage(slideForm.subject, slideSkills.discipline);
        generatedImages == if generateSlidesOutline(SlideParams()).Success? && slideForm.includeImages && image.Some? then [image.value] else []
      ensures !loading
    {
      loading := true;
      result := None;
      slides := [];
      generatedImages := [];
      var output := generateSlidesOutline(SlideParams());
      if output.Success? {
        if output.value != [] {
          result := Some(output.value);
          slides := parseSlides(output.value);
        }
        if slideForm.includeImages {
          var imageUrl := generateThematicImage(slideForm.subject, slideSkills.discipline);
          if imageUrl.Some? {
            generatedImages := [imageUrl.value];
          }
        }
      }
      loading := false;
    }

    /** `handleGenerateLessonPlanAction`: the result is the plan, or stays cleared when the service fails. */
    method GenerateLessonPlan()
      requires Valid()
      modifies this`loading, this`result
      ensures Valid()
      ensures var out := generateLessonPlan(LessonPlanParams());
        result == if out.Failure? then None else Some(out.value)
      ensures !loading
    {
      loading := true;
      result := None;
      var output := generateLessonPlan(LessonPlanParams());
      if output.Success? {
        result := Some(output.value);
      }
      loading := false;
    }

    /** "Recomeçar": clears the result, the slides, the images and both attachments, and so shows the form again. */
    method Restart()
      requires Valid()
      modifies this`result, this`slides, this`generatedImages, this`questions, this`slideForm
      ensures Valid()
      ensures result == None && slides == [] && generatedImages == []
      ensures questions == old(questions).(file := None) && slideForm == old(slideForm).(file := None)
      ensures Screen() == FormScreen(toolId)
    {
      result := None;
      slides := [];
      generatedImages := [];
      questions := questions.(file := None);
      slideForm := slideForm.(file := None);
    }

    /**
     * What the page renders: while a result is present, the slide deck for
     * the slides tool with slides, else the result text; otherwise the form
     * the tool id selects.
     */
    function Screen(): (screen: Screen)
      reads this`result, this`slides
      ensures result.None? || result.value == [] ==> screen == FormScreen(toolId)
      ensures screen == SlideDeck <==> result.Some? && result.value != [] && toolId == "slides-ia" && slides != []
      ensures screen == ResultText <==> result.Some? && result.value != [] && !(toolId == "slides-ia" && slides != [])
    {
      if result.Some? && result.value != [] then
        if toolId == "slides-ia" && slides != [] then SlideDeck else ResultText
      else FormScreen(toolId)
    }
  }

  /** `getFormToRender`: the form for the tool id, or the "under development" notice. */
  function FormScreen(toolId: string): (screen: Screen)
    ensures screen != SlideDeck && screen != ResultText
    ensures screen == UnderDevelopment <==> toolId !in ["questoes-ia", "slides-ia", "plano-aula"]
  {
    if toolId == "questoes-ia" then QuestionsScreen
    else if toolId == "slides-ia" then SlidesScreen
    else if toolId == "plano-aula" then LessonPlanScreen
    else UnderDevelopment
  }

  /** The mounted page's skill lists are the catalogue slices for the default discipline and grades. */
  lemma {:induction false} DefaultSlicesOffered()
    ensures Skills.Lookup(Catalog.BnccData, FirstDiscipline, FifthGrade) != []
    ensures Skills.Lookup(Catalog.BnccData, FirstDiscipline, SixthGrade) != []
  {
    Skills.LookupCatalogue("Português", "5º ano");
    Skills.LookupCatalogue("Português", "6º ano");
    assert "5º ano" in Catalog.PortuguesSkills && "6º ano" in Catalog.PortuguesSkills;
    Catalog.CatalogueKeys();
  }
}
