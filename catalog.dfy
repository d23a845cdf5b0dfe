/**
 * The constant tables of the application (constants.tsx): the disciplines
 * and grades the forms offer, the BNCC skill catalogue keyed by discipline
 * and grade, and the catalogue of tools.
 */
module Catalog {

  /** The disciplines, in the order the discipline selects list them. */
  const Disciplinas: seq<string> := [
    "Português", "Matemática", "História", "Geografia", "Ciências", "Artes",
    "Educação Física", "Inglês", "Ensino Religioso", "Computação"
  ]

  /** The school grades, in school order, as the grade selects list them. */
  const AnosEscolaridade: seq<string> := [
    "Educação Infantil", "1º ano", "2º ano", "3º ano", "4º ano", "5º ano",
    "6º ano", "7º ano", "8º ano", "9º ano", "Ensino Médio"
  ]

  /** The BNCC skill descriptors, by discipline and then by grade. */
  const PortuguesSkills: map<string, seq<string>> := map[
    "1º ano" := ["(EF01LP01) Reconhecer protocolos de leitura", "(EF01LP02) Correspondência fonema-grafema", "(EF01LP05) Sistema de escrita alfabética", "(EF01LP10) Nomear letras do alfabeto"],
    "2º ano" := ["(EF02LP01) Grafia correta e pontuação", "(EF02LP02) Segmentação em sílabas", "(EF02LP07) Formas imprensa e cursiva", "(EF02LP10) Sinônimos e antônimos"],
    "3º ano" := ["(EF03LP01) Correspondências regulares contextuais", "(EF03LP03) Dígrafos lh, nh, ch", "(EF03LP06) Sílaba tônica"],
    "4º ano" := ["(EF04LP01) Regras de correspondência fonema-grafema", "(EF04LP05) Pontuação e discurso direto"],
    "5º ano" := ["(EF05LP01) Regras contextuais e morfológicas", "(EF05LP05) Tempos verbais do indicativo"],
    "6º ano" := ["(EF06LP01) Neutralidade e imparcialidade jornalística", "(EF06LP04) Função e flexões de substantivos/adjetivos"],
    "Ensino Médio" := ["EM13LP01: Contexto sócio-histórico", "EM13LP05: Análise de textos argumentativos", "EM13LP10: Variação linguística"]
  ]

  const MatematicaSkills: map<string, seq<string>> := map[
    "1º ano" := ["(EF01MA01) Números naturais e ordem", "(EF01MA04) Contagem até 100", "(EF01MA13) Figuras espaciais"],
    "2º ano" := ["(EF02MA01) Centenas e valor posicional", "(EF02MA05) Fatos básicos da adição", "(EF02MA14) Sólidos geométricos"],
    "3º ano" := ["(EF03MA01) Números até unidade de milhar", "(EF03MA07) Multiplicação: adição de parcelas"],
    "9º ano" := ["(EF09MA01) Números irracionais", "(EF09MA13) Teorema de Pitágoras"],
    "Ensino Médio" := ["EM13MAT101: Taxas de variação", "EM13MAT302: Funções polinomiais", "EM13MAT308: Relações métricas no triângulo"]
  ]

  const CienciasSkills: map<string, seq<string>> := map[
    "1º ano" := ["(EF01CI01) Características dos materiais", "(EF01CI02) Partes do corpo humano"],
    "2º ano" := ["(EF02CI01) Propriedades dos materiais", "(EF02CI04) Seres vivos no ambiente"],
    "5º ano" := ["(EF05CI02) Ciclo hidrológico", "(EF05CI06) Nutrição e sistemas digestório/respiratório"],
    "9º ano" := ["(EF09CI01) Mudanças de estado físico", "(EF09CI10) Lamarck e Darwin"]
  ]

  const HistoriaSkills: map<string, seq<string>> := map[
    "1º ano" := ["(EF01HI01) Fases da vida", "(EF01HI08) Comemorações escolares"],
    "7º ano" := ["(EF07HI01) Modernidade", "(EF07HI04) Humanismos e Renascimentos"],
    "8º ano" := ["(EF08HI01) Iluminismo e Liberalismo", "(EF08HI03) Revolução Industrial"]
  ]

  const GeografiaSkills: map<string, seq<string>> := map[
    "1º ano" := ["(EF01GE01) Lugares de vivência", "(EF01GE05) Ciclos naturais"],
    "8º ano" := ["(EF08GE01) Rotas de dispersão populacional", "(EF08GE05) Estado, nação e território"],
    "9º ano" := ["(EF09GE01) Hegemonia europeia", "(EF09GE05) Globalização e mundialização"]
  ]

  const InfantilSkills: map<string, seq<string>> := map[
    "Educação Infantil" := [
      "Conviver com outras crianças e adultos",
      "Brincar cotidianamente de diversas formas",
      "Participar ativamente do planejamento",
      "Explorar movimentos, gestos e sons",
      "EI03ET01: Estabelecer relações de comparação",
      "EI03EF01: Expressar ideias e sentimentos"
    ]
  ]

  const ComputacaoSkills: map<string, seq<string>> := map[
    "1º ano" := ["(EF01CO01) Organização de objetos", "(EF01CO02) Sequências de passos"],
    "Ensino Médio" := ["EM13CO01: Solução de problemas/reúso", "EM13CO10: Fundamentos da IA"]
  ]

  /** A skill catalogue: discipline, then grade, then the skill descriptors. */
  type Catalogue = map<string, map<string, seq<string>>>

  const BnccData: Catalogue := map[
    "Português" := PortuguesSkills,
    "Matemática" := MatematicaSkills,
    "Ciências" := CienciasSkills,
    "História" := HistoriaSkills,
    "Geografia" := GeografiaSkills,
    "Educação Infantil" := InfantilSkills,
    "Computação" := ComputacaoSkills
  ]

  /** A tool of the dashboard catalogue. */
  datatype Tool = Tool(id: string, title: string, description: string, icon: string, category: string)

  const Tools: seq<Tool> := [
    Tool("questoes-ia", "Criar Questionários IA",
         "Gere questões automáticas personalizadas seguindo a BNCC.", "fa-brain", "Avaliar"),
    Tool("slides-ia", "Apresentação de Slides",
         "Crie roteiros e estruturas de slides em segundos para sua aula.", "fa-file-powerpoint", "Criar Aula"),
    Tool("plano-aula", "Plano de Aula",
         "Planeje sua sequência didática completa com objetivos e BNCC.", "fa-calendar-check", "Planejar"),
    Tool("corretor-ia", "Corretor de Redação",
         "Auxílio na correção e feedback produtivo para estudantes.", "fa-pen-nib", "Corrigir")
  ]

  predicate Distinct<T(==)>(s: seq<T>) {
    forall i, j :: 0 <= i < j < |s| ==> s[i] != s[j]
  }

  /** The disciplines and the grades are lists of distinct names; the form defaults sit at indexes 5 and 6. */
  lemma {:induction false} SelectOptions()
    ensures |Disciplinas| == 10 && Distinct(Disciplinas)
    ensures |AnosEscolaridade| == 11 && Distinct(AnosEscolaridade)
    ensures AnosEscolaridade[5] == "5º ano" && AnosEscolaridade[6] == "6º ano"
    ensures Disciplinas[0] == "Português"
  {
  }

  /** The disciplines the catalogue has skills for. */
  lemma {:induction false} CatalogueKeys()
    ensures forall d :: d in BnccData <==>
      d in {"Português", "Matemática", "Ciências", "História", "Geografia", "Educação Infantil", "Computação"}
  {
  }

  /** The grade keys of one discipline are all school grades. */
  predicate GradesKnown(m: map<string, seq<string>>) {
    forall g :: g in m ==> g in AnosEscolaridade
  }

  lemma {:induction false} PortuguesGrades() ensures GradesKnown(PortuguesSkills) {}
  lemma {:induction false} MatematicaGrades() ensures GradesKnown(MatematicaSkills) {}
  lemma {:induction false} CienciasGrades() ensures GradesKnown(CienciasSkills) {}
  lemma {:induction false} HistoriaGrades() ensures GradesKnown(HistoriaSkills) {}
  lemma {:induction false} GeografiaGrades() ensures GradesKnown(GeografiaSkills) {}
  lemma {:induction false} InfantilGrades() ensures GradesKnown(InfantilSkills) {}
  lemma {:induction false} ComputacaoGrades() ensures GradesKnown(ComputacaoSkills) {}

  /** Every grade the catalogue is keyed by is one of the school grades. */
  lemma {:induction false} GradeKeysAreGrades()
    ensures forall d :: d in BnccData ==> GradesKnown(BnccData[d])
  {
    PortuguesGrades();
    MatematicaGrades();
    CienciasGrades();
    HistoriaGrades();
    GeografiaGrades();
    InfantilGrades();
    ComputacaoGrades();
  }

  /**
   * Every discipline the catalogue is keyed by is a selectable discipline,
   * except "Educação Infantil", which no discipline select offers.
   */
  lemma {:induction false} DisciplineKeys()
    ensures forall d :: d in BnccData && d != "Educação Infantil" ==> d in Disciplinas
    ensures "Educação Infantil" in BnccData && "Educação Infantil" !in Disciplinas
  {
  }

  /** Four selectable disciplines have no catalogue entry at all. */
  lemma {:induction false} DisciplinesWithoutSkills(d: string)
    requires d in ["Artes", "Educação Física", "Inglês", "Ensino Religioso"]
    ensures d in Disciplinas && d !in BnccData
  {
    CatalogueKeys();
  }

  predicate GoodSlice(skills: seq<string>) {
    |skills| > 0 && Distinct(skills)
  }

  /** The slices of one discipline are all non-empty and free of duplicates. */
  predicate GoodSlices(m: map<string, seq<string>>) {
    forall g :: g in m ==> GoodSlice(m[g])
  }

  lemma {:induction false} PortuguesSlices() ensures GoodSlices(PortuguesSkills) {}
  lemma {:induction false} MatematicaSlices() ensures GoodSlices(MatematicaSkills) {}
  lemma {:induction false} CienciasSlices() ensures GoodSlices(CienciasSkills) {}
  lemma {:induction false} HistoriaSlices() ensures GoodSlices(HistoriaSkills) {}
  lemma {:induction false} GeografiaSlices() ensures GoodSlices(GeografiaSkills) {}
  lemma {:induction false} InfantilSlices() ensures GoodSlices(InfantilSkills) {}
  lemma {:induction false} ComputacaoSlices() ensures GoodSlices(ComputacaoSkills) {}

  /** Every slice of the catalogue is non-empty and lists each skill once. */
  lemma {:induction false} SlicesNonEmptyAndDistinct()
    ensures forall d :: d in BnccData ==> GoodSlices(BnccData[d])
  {
    PortuguesSlices();
    MatematicaSlices();
    CienciasSlices();
    HistoriaSlices();
    GeografiaSlices();
    InfantilSlices();
    ComputacaoSlices();
  }

  /** The tool ids are distinct and are exactly the four known tools. */
  lemma {:induction false} ToolIds()
    ensures |Tools| == 4 && Distinct(Tools)
    ensures Tools[0].id == "questoes-ia" && Tools[1].id == "slides-ia"
    ensures Tools[2].id == "plano-aula" && Tools[3].id == "corretor-ia"
    ensures forall i, j :: 0 <= i < j < |Tools| ==> Tools[i].id != Tools[j].id
  {
  }
}
