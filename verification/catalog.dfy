/** The evaluation theme catalog: five themes, each with ordered categories
    of question texts and an ordered table of score ranges, plus the 1-4
    answer scale. The data is immutable; the predicates and lemmas below
    state the invariants the questionnaire, the results view and the admin
    pages rely on. */
module Catalog {
  import opened Seqs

  /** The colour family of a Tailwind class such as "bg-success/10
      text-success"; the class strings themselves are presentation only. */
  datatype Tone = Destructive | Warning | Primary | Success

  /** Position of a tone on the scale from worst to best. */
  function ToneRank(t: Tone): nat {
    match t
    case Destructive => 0
    case Warning => 1
    case Primary => 2
    case Success => 3
  }

  /** Names one long French text of the catalog by where it sits. The
      themes refer to their titles, descriptions, category names, questions,
      analyses and recommendations through these keys, and `Wording` spells
      each one out; ids, short titles and band labels are kept inline. */
  datatype TextKey =
    | TitleOf(theme: nat)
    | DescriptionOf(theme: nat)
    | CategoryNameOf(theme: nat, category: nat)
    | QuestionOf(theme: nat, category: nat, question: nat)
    | AnalysisOf(theme: nat, band: nat)
    | RecommendationOf(theme: nat, band: nat, item: nat)

  /** A band [min, max] of total scores (both ends inclusive), its label,
      badge tone, narrative analysis and recommendations. */
  datatype ScoreRange = ScoreRange(
    min: int,
    max: int,
    labelText: string,
    labelClass: Tone,
    analysis: TextKey,
    recommendations: seq<TextKey>)

  /** A named group of question texts, in presentation order. */
  datatype Category = Category(name: TextKey, questions: seq<TextKey>)

  /** An evaluation theme. `accent` is the gradient class, opaque here. */
  datatype Theme = Theme(
    id: string,
    title: TextKey,
    shortTitle: string,
    description: TextKey,
    accent: string,
    categories: seq<Category>,
    scoreRanges: seq<ScoreRange>)

  /** One point of the answer scale. */
  datatype AnswerOption = AnswerOption(value: int, labelText: string)

  /** `score` lies inside the band `r`. */
  predicate InRange(r: ScoreRange, score: int) {
    r.min <= score <= r.max
  }

  /** The bands of `ranges`, in order, tile the interval [lo, hi]: the first
      starts at lo, the last ends at hi, each band is non-empty and each
      starts right after the previous one ends. */
  predicate Tiles(ranges: seq<ScoreRange>, lo: int, hi: int) {
    && |ranges| > 0
    && ranges[0].min == lo
    && ranges[|ranges| - 1].max == hi
    && (forall i :: 0 <= i < |ranges| ==> ranges[i].min <= ranges[i].max)
    && (forall i :: 0 < i < |ranges| ==> ranges[i].min == ranges[i - 1].max + 1)
  }

  /** The shape every catalog theme has: three categories of five
      questions, bands tiling [15, 60], three recommendations per band, and
      band tones rising from destructive to success, band k having tone
      rank k. */
  predicate WellFormedTheme(t: Theme) {
    && |t.categories| == 3
    && (forall c :: c in t.categories ==> |c.questions| == 5)
    && Tiles(t.scoreRanges, 15, 60)
    && (forall r :: r in t.scoreRanges ==> |r.recommendations| == 3)
    && (forall k :: 0 <= k < |t.scoreRanges| ==> ToneRank(t.scoreRanges[k].labelClass) == k)
  }

  /** The band boundaries of a table, without the narrative content. */
  function Bounds(ranges: seq<ScoreRange>): (b: seq<(int, int)>)
    ensures |b| == |ranges|
    ensures forall i :: 0 <= i < |b| ==> b[i] == (ranges[i].min, ranges[i].max)
  {
    seq(|ranges|, i requires 0 <= i < |ranges| => (ranges[i].min, ranges[i].max))
  }

  /** The band table shared by every theme. */
  const StandardBounds: seq<(int, int)> := [(15, 29), (30, 39), (40, 49), (50, 60)]

  /** Theme "climat-social". */
  const ClimatSocial: Theme := Theme(
    "climat-social", TitleOf(0), "Climat Social", DescriptionOf(0), "from-rose-500 to-pink-500",
    [
      Category(CategoryNameOf(0, 0), [QuestionOf(0, 0, 0), QuestionOf(0, 0, 1), QuestionOf(0, 0, 2), QuestionOf(0, 0, 3), QuestionOf(0, 0, 4)]),
      Category(CategoryNameOf(0, 1), [QuestionOf(0, 1, 0), QuestionOf(0, 1, 1), QuestionOf(0, 1, 2), QuestionOf(0, 1, 3), QuestionOf(0, 1, 4)]),
      Category(CategoryNameOf(0, 2), [QuestionOf(0, 2, 0), QuestionOf(0, 2, 1), QuestionOf(0, 2, 2), QuestionOf(0, 2, 3), QuestionOf(0, 2, 4)])
    ],
    [
      ScoreRange(15, 29, "Critique", Destructive, AnalysisOf(0, 0),
        [RecommendationOf(0, 0, 0), RecommendationOf(0, 0, 1), RecommendationOf(0, 0, 2)]),
      ScoreRange(30, 39, "Fragile", Warning, AnalysisOf(0, 1),
        [RecommendationOf(0, 1, 0), RecommendationOf(0, 1, 1), RecommendationOf(0, 1, 2)]),
      ScoreRange(40, 49, "Stable", Primary, AnalysisOf(0, 2),
        [RecommendationOf(0, 2, 0), RecommendationOf(0, 2, 1), RecommendationOf(0, 2, 2)]),
      ScoreRange(50, 60, "Performant", Success, AnalysisOf(0, 3),
        [RecommendationOf(0, 3, 0), RecommendationOf(0, 3, 1), RecommendationOf(0, 3, 2)])
    ])

  /** Theme "leadership". */
  const Leadership: Theme := Theme(
    "leadership", TitleOf(1), "Leadership", DescriptionOf(1), "from-blue-500 to-indigo-500",
    [
      Category(CategoryNameOf(1, 0), [QuestionOf(1, 0, 0), QuestionOf(1, 0, 1), QuestionOf(1, 0, 2), QuestionOf(1, 0, 3), QuestionOf(1, 0, 4)]),
      Category(CategoryNameOf(1, 1), [QuestionOf(1, 1, 0), QuestionOf(1, 1, 1), QuestionOf(1, 1, 2), QuestionOf(1, 1, 3), QuestionOf(1, 1, 4)]),
      Category(CategoryNameOf(1, 2), [QuestionOf(1, 2, 0), QuestionOf(1, 2, 1), QuestionOf(1, 2, 2), QuestionOf(1, 2, 3), QuestionOf(1, 2, 4)])
    ],
    [
      ScoreRange(15, 29, "Critique", Destructive, AnalysisOf(1, 0),
        [RecommendationOf(1, 0, 0), RecommendationOf(1, 0, 1), RecommendationOf(1, 0, 2)]),
      ScoreRange(30, 39, "Fragile", Warning, AnalysisOf(1, 1),
        [RecommendationOf(1, 1, 0), RecommendationOf(1, 1, 1), RecommendationOf(1, 1, 2)]),
      ScoreRange(40, 49, "Stable", Primary, AnalysisOf(1, 2),
        [RecommendationOf(1, 2, 0), RecommendationOf(1, 2, 1), RecommendationOf(1, 2, 2)]),
      ScoreRange(50, 60, "Performant", Success, AnalysisOf(1, 3),
        [RecommendationOf(1, 3, 0), RecommendationOf(1, 3, 1), RecommendationOf(1, 3, 2)])
    ])

  /** Theme "performance". */
  const Performance: Theme := Theme(
    "performance", TitleOf(2), "Performance", DescriptionOf(2), "from-emerald-500 to-teal-500",
    [
      Category(CategoryNameOf(2, 0), [QuestionOf(2, 0, 0), QuestionOf(2, 0, 1), QuestionOf(2, 0, 2), QuestionOf(2, 0, 3), QuestionOf(2, 0, 4)]),
      Category(CategoryNameOf(2, 1), [QuestionOf(2, 1, 0), QuestionOf(2, 1, 1), QuestionOf(2, 1, 2), QuestionOf(2, 1, 3), QuestionOf(2, 1, 4)]),
      Category(CategoryNameOf(2, 2), [QuestionOf(2, 2, 0), QuestionOf(2, 2, 1), QuestionOf(2, 2, 2), QuestionOf(2, 2, 3), QuestionOf(2, 2, 4)])
    ],
    [
      ScoreRange(15, 29, "Critique", Destructive, AnalysisOf(2, 0),
        [RecommendationOf(2, 0, 0), RecommendationOf(2, 0, 1), RecommendationOf(2, 0, 2)]),
      ScoreRange(30, 39, "Fragile", Warning, AnalysisOf(2, 1),
        [RecommendationOf(2, 1, 0), RecommendationOf(2, 1, 1), RecommendationOf(2, 1, 2)]),
      ScoreRange(40, 49, "Stable", Primary, AnalysisOf(2, 2),
        [RecommendationOf(2, 2, 0), RecommendationOf(2, 2, 1), RecommendationOf(2, 2, 2)]),
      ScoreRange(50, 60, "Performant", Success, AnalysisOf(2, 3),
        [RecommendationOf(2, 3, 0), RecommendationOf(2, 3, 1), RecommendationOf(2, 3, 2)])
    ])

  /** Theme "organisation". */
  const Organisation: Theme := Theme(
    "organisation", TitleOf(3), "Organisation", DescriptionOf(3), "from-violet-500 to-purple-500",
    [
      Category(CategoryNameOf(3, 0), [QuestionOf(3, 0, 0), QuestionOf(3, 0, 1), QuestionOf(3, 0, 2), QuestionOf(3, 0, 3), QuestionOf(3, 0, 4)]),
      Category(CategoryNameOf(3, 1), [QuestionOf(3, 1, 0), QuestionOf(3, 1, 1), QuestionOf(3, 1, 2), QuestionOf(3, 1, 3), QuestionOf(3, 1, 4)]),
      Category(CategoryNameOf(3, 2), [QuestionOf(3, 2, 0), QuestionOf(3, 2, 1), QuestionOf(3, 2, 2), QuestionOf(3, 2, 3), QuestionOf(3, 2, 4)])
    ],
    [
      ScoreRange(15, 29, "Inefficace", Destructive, AnalysisOf(3, 0),
        [RecommendationOf(3, 0, 0), RecommendationOf(3, 0, 1), RecommendationOf(3, 0, 2)]),
      ScoreRange(30, 39, "Fragile", Warning, AnalysisOf(3, 1),
        [RecommendationOf(3, 1, 0), RecommendationOf(3, 1, 1), RecommendationOf(3, 1, 2)]),
      ScoreRange(40, 49, "Fonctionnelle", Primary, AnalysisOf(3, 2),
        [RecommendationOf(3, 2, 0), RecommendationOf(3, 2, 1), RecommendationOf(3, 2, 2)]),
      ScoreRange(50, 60, "Agile & Performante", Success, AnalysisOf(3, 3),
        [RecommendationOf(3, 3, 0), RecommendationOf(3, 3, 1), RecommendationOf(3, 3, 2)])
    ])

  /** Theme "talents". */
  const Talents: Theme := Theme(
    "talents", TitleOf(4), "Talents", DescriptionOf(4), "from-amber-500 to-orange-500",
    [
      Category(CategoryNameOf(4, 0), [QuestionOf(4, 0, 0), QuestionOf(4, 0, 1), QuestionOf(4, 0, 2), QuestionOf(4, 0, 3), QuestionOf(4, 0, 4)]),
      Category(CategoryNameOf(4, 1), [QuestionOf(4, 1, 0), QuestionOf(4, 1, 1), QuestionOf(4, 1, 2), QuestionOf(4, 1, 3), QuestionOf(4, 1, 4)]),
      Category(CategoryNameOf(4, 2), [QuestionOf(4, 2, 0), QuestionOf(4, 2, 1), QuestionOf(4, 2, 2), QuestionOf(4, 2, 3), QuestionOf(4, 2, 4)])
    ],
    [
      ScoreRange(15, 29, "Critique", Destructive, AnalysisOf(4, 0),
        [RecommendationOf(4, 0, 0), RecommendationOf(4, 0, 1), RecommendationOf(4, 0, 2)]),
      ScoreRange(30, 39, "Fragile", Warning, AnalysisOf(4, 1),
        [RecommendationOf(4, 1, 0), RecommendationOf(4, 1, 1), RecommendationOf(4, 1, 2)]),
      ScoreRange(40, 49, "Structurée", Primary, AnalysisOf(4, 2),
        [RecommendationOf(4, 2, 0), RecommendationOf(4, 2, 1), RecommendationOf(4, 2, 2)]),
      ScoreRange(50, 60, "Performante", Success, AnalysisOf(4, 3),
        [RecommendationOf(4, 3, 0), RecommendationOf(4, 3, 1), RecommendationOf(4, 3, 2)])
    ])

  /** The French text a key stands for. Keys the catalog does not use
      spell out the empty string. */
  function Wording(k: TextKey): string {
    match k
    case TitleOf(t) => TitleWording(t)
    case DescriptionOf(t) => DescriptionWording(t)
    case CategoryNameOf(t, c) => CategoryWording(t, c)
    case QuestionOf(t, c, i) => QuestionWording(t, c, i)
    case AnalysisOf(t, b) => AnalysisWording(t, b)
    case RecommendationOf(t, b, i) => RecommendationWording(t, b, i)
  }

  /** Theme titles. */
  function TitleWording(t: nat): string {
    match t
    case 0 => "Climat social et bien-être organisationnel"
    case 1 => "Leadership et gouvernance managériale"
    case 2 => "Performance et engagement des équipes"
    case 3 => "Organisation et efficacité opérationnelle"
    case 4 => "Développement des talents et compétences"
    case _ => ""
  }

  /** Theme descriptions. */
  function DescriptionWording(t: nat): string {
    match t
    case 0 => "Évaluez les relations interpersonnelles, le bien-être et la culture d'engagement au sein de votre organisation."
    case 1 => "Analysez la vision, la posture managériale et l'efficacité de la communication au sein de votre direction."
    case 2 => "Mesurez le pilotage des objectifs, l'engagement des collaborateurs et la culture de reconnaissance."
    case 3 => "Évaluez la clarté des rôles, l'efficacité des processus et la capacité d'adaptation de votre structure."
    case 4 => "Analysez votre capacité à identifier, développer et fidéliser les talents au sein de votre organisation."
    case _ => ""
  }

  /** Category names, by theme and category. */
  function CategoryWording(t: nat, c: nat): string {
    match (t, c)
    case (0, 0) => "Relations interprofessionnelles et confiance"
    case (0, 1) => "Bien-être et motivation"
    case (0, 2) => "Culture et engagement"
    case (1, 0) => "Vision, posture et exemplarité"
    case (1, 1) => "Management des équipes"
    case (1, 2) => "Communication & prise de décision"
    case (2, 0) => "Objectifs & pilotage de la performance"
    case (2, 1) => "Engagement & responsabilisation"
    case (2, 2) => "Reconnaissance & amélioration continue"
    case (3, 0) => "Structure et rôles"
    case (3, 1) => "Processus et coordination"
    case (3, 2) => "Agilité et amélioration continue"
    case (4, 0) => "Identification & gestion des talents"
    case (4, 1) => "Formation & développement des compétences"
    case (4, 2) => "Évolution professionnelle & fidélisation"
    case _ => ""
  }

  /** Band analyses, by theme and band. */
  function AnalysisWording(t: nat, b: nat): string {
    match (t, b)
    case (0, 0) => "Les résultats indiquent un climat social fortement dégradé. Les relations internes semblent marquées par un manque de confiance, une communication insuffisante et des tensions non résolues."
    case (0, 1) => "Votre entreprise dispose de certaines bases positives, mais le climat social reste instable et vulnérable. Des difficultés peuvent être observées notamment dans la communication interne et la reconnaissance des efforts."
    case (0, 2) => "Le climat social de votre organisation est globalement sain et fonctionnel. Les relations de travail sont positives, le niveau de confiance est satisfaisant et les collaborateurs se sentent majoritairement impliqués."
    case (0, 3) => "Votre entreprise bénéficie d'un climat social très favorable, caractérisé par un haut niveau de confiance, de motivation et d'engagement. Ce climat constitue un avantage compétitif majeur."
    case (1, 0) => "Les résultats révèlent un leadership fragilisé et des pratiques managériales peu structurées. Le manque de vision partagée et l'insuffisance de communication génèrent désengagement et tensions."
    case (1, 1) => "Le leadership existe mais reste inégal et peu homogène. Certaines pratiques managériales sont efficaces, mais d'autres manquent de cohérence ou de constance."
    case (1, 2) => "Le leadership est globalement fonctionnel et structuré. Les managers remplissent leur rôle, les équipes sont encadrées et les décisions sont majoritairement efficaces."
    case (1, 3) => "Votre organisation bénéficie d'un leadership fort, structurant et inspirant. Les managers incarnent la vision, mobilisent les équipes et favorisent l'engagement durable."
    case (2, 0) => "Les résultats traduisent un faible niveau de performance et d'engagement. Les objectifs peuvent être flous, peu partagés ou mal suivis, limitant l'implication des équipes."
    case (2, 1) => "La performance existe, mais elle reste irrégulière et dépendante des individus. L'engagement peut varier selon les équipes, les managers ou les périodes."
    case (2, 2) => "Votre organisation affiche un niveau de performance globalement satisfaisant. Les objectifs sont connus, les équipes engagées et les résultats atteints de manière régulière."
    case (2, 3) => "Votre entreprise bénéficie d'un haut niveau de performance et d'engagement. Les équipes sont responsabilisées, motivées et orientées résultats."
    case (3, 0) => "Les résultats mettent en évidence une organisation peu structurée, avec des rôles flous, des processus inefficaces et une coordination insuffisante entre les équipes."
    case (3, 1) => "L'organisation fonctionne, mais de manière perfectible et inégale. Certains processus sont efficaces, tandis que d'autres freinent la performance et la réactivité."
    case (3, 2) => "Votre organisation est globalement structurée et opérationnelle. Les processus sont identifiés, les rôles clairs et la coordination globalement efficace."
    case (3, 3) => "Votre entreprise bénéficie d'une organisation fluide, structurée et adaptable. Les processus soutiennent la performance et facilitent l'atteinte des objectifs."
    case (4, 0) => "Les résultats révèlent une faible structuration des pratiques de gestion des talents. Les compétences ne sont pas suffisamment identifiées et les parcours de développement sont limités."
    case (4, 1) => "Certaines pratiques existent, mais elles restent peu formalisées et inégales. Le développement des talents dépend souvent d'initiatives ponctuelles plutôt que d'une stratégie claire."
    case (4, 2) => "Votre entreprise dispose de pratiques globalement structurées et efficaces. Les talents sont identifiés, les compétences développées et les collaborateurs engagés."
    case (4, 3) => "Votre organisation bénéficie d'une gestion des talents mature et performante. Les compétences sont alignées avec la stratégie, les collaborateurs sont engagés et fidélisés."
    case _ => ""
  }

  /** Question texts, by theme, category and position. */
  function QuestionWording(t: nat, c: nat, i: nat): string {
    match (t, c, i)
    case (0, 0, 0) => "Les relations entre collaborateurs sont globalement saines et respectueuses."
    case (0, 0, 1) => "Les collaborateurs se sentent écoutés par leur hiérarchie."
    case (0, 0, 2) => "La confiance est présente entre les équipes et le management."
    case (0, 0, 3) => "Les conflits sont gérés de manière constructive."
    case (0, 0, 4) => "Le climat social favorise la collaboration plutôt que la compétition négative."
    case (0, 1, 0) => "Les collaborateurs se sentent motivés dans leur travail au quotidien."
    case (0, 1, 1) => "Les conditions de travail permettent un bon équilibre entre vie professionnelle et personnelle."
    case (0, 1, 2) => "Les efforts et les résultats sont reconnus à leur juste valeur."
    case (0, 1, 3) => "Le stress professionnel est maîtrisé dans l'organisation."
    case (0, 1, 4) => "Les collaborateurs se sentent respectés et considérés."
    case (0, 2, 0) => "Les valeurs de l'entreprise sont claires et partagées."
    case (0, 2, 1) => "Les collaborateurs se sentent fiers d'appartenir à l'organisation."
    case (0, 2, 2) => "La communication interne est fluide et transparente."
    case (0, 2, 3) => "Les différences culturelles, générationnelles ou sociales sont respectées."
    case (0, 2, 4) => "L'entreprise favorise un climat inclusif et équitable."
    case (1, 0, 0) => "La vision stratégique de l'entreprise est claire et partagée par les équipes."
    case (1, 0, 1) => "Les dirigeants et managers incarnent les valeurs de l'entreprise."
    case (1, 0, 2) => "Les managers font preuve d'exemplarité dans leurs comportements."
    case (1, 0, 3) => "Les décisions managériales sont cohérentes et assumées."
    case (1, 0, 4) => "Le leadership favorise la confiance et l'engagement."
    case (1, 1, 0) => "Les objectifs sont clairement définis et compris par les équipes."
    case (1, 1, 1) => "Les managers savent motiver et mobiliser leurs collaborateurs."
    case (1, 1, 2) => "Le feedback est régulier, constructif et orienté amélioration."
    case (1, 1, 3) => "Les managers accompagnent efficacement le développement des compétences."
    case (1, 1, 4) => "Les situations difficiles sont gérées avec professionnalisme."
    case (1, 2, 0) => "La communication managériale est claire, ouverte et transparente."
    case (1, 2, 1) => "Les collaborateurs peuvent s'exprimer librement et être entendus."
    case (1, 2, 2) => "Les décisions sont prises dans des délais raisonnables."
    case (1, 2, 3) => "Les managers savent arbitrer et prioriser efficacement."
    case (1, 2, 4) => "Le management favorise l'intelligence collective."
    case (2, 0, 0) => "Les objectifs individuels et collectifs sont clairement définis."
    case (2, 0, 1) => "Les objectifs sont alignés avec la stratégie globale de l'entreprise."
    case (2, 0, 2) => "Les indicateurs de performance sont pertinents et suivis régulièrement."
    case (2, 0, 3) => "Les collaborateurs comprennent comment leur travail contribue aux résultats."
    case (2, 0, 4) => "Les résultats sont analysés et partagés de manière constructive."
    case (2, 1, 0) => "Les collaborateurs sont impliqués dans l'atteinte des résultats."
    case (2, 1, 1) => "Chacun se sent responsable de la performance collective."
    case (2, 1, 2) => "Les initiatives et les prises de responsabilité sont encouragées."
    case (2, 1, 3) => "Les collaborateurs font preuve de proactivité dans leur travail."
    case (2, 1, 4) => "L'engagement des équipes est stable et durable."
    case (2, 2, 0) => "Les efforts et les résultats sont reconnus à leur juste valeur."
    case (2, 2, 1) => "Les performances individuelles et collectives sont valorisées."
    case (2, 2, 2) => "Les erreurs sont utilisées comme leviers d'apprentissage."
    case (2, 2, 3) => "L'entreprise encourage l'amélioration continue."
    case (2, 2, 4) => "La culture du résultat est positive et motivante."
    case (3, 0, 0) => "Les rôles et responsabilités sont clairement définis dans l'organisation."
    case (3, 0, 1) => "Chaque collaborateur connaît précisément son périmètre d'action."
    case (3, 0, 2) => "Les fiches de poste sont claires et à jour."
    case (3, 0, 3) => "Les chevauchements de responsabilités sont limités."
    case (3, 0, 4) => "La structure organisationnelle est adaptée aux activités de l'entreprise."
    case (3, 1, 0) => "Les processus de travail sont clairement formalisés."
    case (3, 1, 1) => "Les circuits de décision sont simples et efficaces."
    case (3, 1, 2) => "La coordination entre les services est fluide."
    case (3, 1, 3) => "Les délais de traitement des tâches sont maîtrisés."
    case (3, 1, 4) => "Les dysfonctionnements organisationnels sont rapidement corrigés."
    case (3, 2, 0) => "L'organisation s'adapte facilement aux changements."
    case (3, 2, 1) => "Les collaborateurs comprennent les évolutions organisationnelles."
    case (3, 2, 2) => "Les outils de travail sont adaptés aux besoins opérationnels."
    case (3, 2, 3) => "L'entreprise encourage la remise en question des pratiques existantes."
    case (3, 2, 4) => "L'amélioration continue fait partie de la culture interne."
    case (4, 0, 0) => "Les compétences clés nécessaires à la performance sont clairement identifiées."
    case (4, 0, 1) => "L'entreprise sait repérer les talents à fort potentiel."
    case (4, 0, 2) => "Les postes sont occupés par des profils adaptés aux exigences du rôle."
    case (4, 0, 3) => "Les talents sont valorisés et reconnus au sein de l'organisation."
    case (4, 0, 4) => "La gestion des talents est alignée avec la stratégie de l'entreprise."
    case (4, 1, 0) => "L'entreprise dispose d'un plan de formation structuré."
    case (4, 1, 1) => "Les formations proposées répondent aux besoins réels des équipes."
    case (4, 1, 2) => "Les collaborateurs ont des opportunités de développement professionnel."
    case (4, 1, 3) => "Le coaching et l'accompagnement individuel sont encouragés."
    case (4, 1, 4) => "Les compétences acquises sont mises en pratique dans le travail quotidien."
    case (4, 2, 0) => "Les perspectives d'évolution professionnelle sont claires."
    case (4, 2, 1) => "Les mobilités internes sont encouragées et accompagnées."
    case (4, 2, 2) => "Les collaborateurs se projettent durablement dans l'entreprise."
    case (4, 2, 3) => "L'entreprise agit pour limiter le turnover des talents clés."
    case (4, 2, 4) => "La culture de l'apprentissage continu est bien ancrée."
    case _ => ""
  }

  /** Recommendations, by theme, band and position. */
  function RecommendationWording(t: nat, b: nat, i: nat): string {
    match (t, b, i)
    case (0, 0, 0) => "Un diagnostic social approfondi"
    case (0, 0, 1) => "Un accompagnement managérial ciblé"
    case (0, 0, 2) => "La mise en place d'un plan d'amélioration du climat social"
    case (0, 1, 0) => "Des actions ciblées d'amélioration du climat social"
    case (0, 1, 1) => "Un accompagnement des managers"
    case (0, 1, 2) => "La mise en place d'indicateurs de suivi du bien-être"
    case (0, 2, 0) => "Consolider les pratiques actuelles"
    case (0, 2, 1) => "Investir dans la prévention des risques psychosociaux"
    case (0, 2, 2) => "Renforcer la culture managériale et la communication interne"
    case (0, 3, 0) => "Mise en place de dispositifs d'innovation sociale"
    case (0, 3, 1) => "Développement de pratiques managériales avancées"
    case (0, 3, 2) => "Positionnement comme référence en matière de climat social"
    case (1, 0, 0) => "Un diagnostic managérial approfondi"
    case (1, 0, 1) => "Un coaching des dirigeants et managers"
    case (1, 0, 2) => "La mise en place de bases managériales solides"
    case (1, 1, 0) => "Un renforcement des compétences managériales"
    case (1, 1, 1) => "Des actions de coaching ciblées"
    case (1, 1, 2) => "L'harmonisation des pratiques de leadership"
    case (1, 2, 0) => "Le développement du leadership transformationnel"
    case (1, 2, 1) => "Le renforcement du feedback et de l'intelligence collective"
    case (1, 2, 2) => "Des formations avancées en management"
    case (1, 3, 0) => "Maintien et valorisation des bonnes pratiques"
    case (1, 3, 1) => "Dispositifs de leadership avancé"
    case (1, 3, 2) => "Positionnement des managers comme leaders d'influence"
    case (2, 0, 0) => "Un diagnostic approfondi de la performance humaine"
    case (2, 0, 1) => "La clarification des objectifs et des rôles"
    case (2, 0, 2) => "La mise en place d'un système de pilotage de la performance"
    case (2, 1, 0) => "Le renforcement des mécanismes d'engagement"
    case (2, 1, 1) => "L'harmonisation des pratiques de reconnaissance"
    case (2, 1, 2) => "L'instauration d'une culture claire de la performance"
    case (2, 2, 0) => "L'optimisation des outils de pilotage"
    case (2, 2, 1) => "Le développement de la reconnaissance et de la motivation"
    case (2, 2, 2) => "Le renforcement de la culture de l'amélioration continue"
    case (2, 3, 0) => "La pérennisation des bonnes pratiques"
    case (2, 3, 1) => "L'innovation dans le management de la performance"
    case (2, 3, 2) => "Le positionnement comme organisation apprenante"
    case (3, 0, 0) => "Un diagnostic organisationnel approfondi"
    case (3, 0, 1) => "La clarification des rôles et responsabilités"
    case (3, 0, 2) => "La refonte des processus clés"
    case (3, 1, 0) => "L'optimisation des processus existants"
    case (3, 1, 1) => "L'amélioration de la coordination interservices"
    case (3, 1, 2) => "L'accompagnement dans la conduite du changement"
    case (3, 2, 0) => "L'amélioration continue des processus"
    case (3, 2, 1) => "Le renforcement des outils de pilotage opérationnel"
    case (3, 2, 2) => "L'anticipation des évolutions organisationnelles"
    case (3, 3, 0) => "La pérennisation des bonnes pratiques"
    case (3, 3, 1) => "L'innovation organisationnelle"
    case (3, 3, 2) => "Le partage des standards d'excellence en interne"
    case (4, 0, 0) => "Un diagnostic RH approfondi"
    case (4, 0, 1) => "La structuration de la gestion des compétences"
    case (4, 0, 2) => "La mise en place de parcours de développement adaptés"
    case (4, 1, 0) => "La formalisation des pratiques RH"
    case (4, 1, 1) => "Le déploiement de plans de formation ciblés"
    case (4, 1, 2) => "Le renforcement du coaching et de l'accompagnement"
    case (4, 2, 0) => "L'optimisation des parcours professionnels"
    case (4, 2, 1) => "Le renforcement de la mobilité interne"
    case (4, 2, 2) => "L'ancrage d'une culture forte de développement continu"
    case (4, 3, 0) => "L'innovation dans les pratiques RH"
    case (4, 3, 1) => "Le développement des leaders de demain"
    case (4, 3, 2) => "Le positionnement comme employeur de référence"
    case _ => ""
  }

  /** `evaluationThemes`, in display order. */
  const Themes: seq<Theme> := [ClimatSocial, Leadership, Performance, Organisation, Talents]

  /** `answerOptions`: the four points of the agreement scale. */
  const AnswerOptions: seq<AnswerOption> := [
    AnswerOption(1, "Pas du tout d'accord"),
    AnswerOption(2, "Peu d'accord"),
    AnswerOption(3, "Plutôt d'accord"),
    AnswerOption(4, "Tout à fait d'accord")
  ]

  /** `v` is the value of one of the answer options. */
  predicate IsAnswerValue(v: int) {
    exists i :: 0 <= i < |AnswerOptions| && AnswerOptions[i].value == v
  }

  /** The five theme ids are pairwise distinct. */
  lemma ThemeIdsDistinct()
    ensures |Themes| == 5
    ensures forall i, j :: 0 <= i < j < |Themes| ==> Themes[i].id != Themes[j].id
  {
    assert Themes[0].id[0] == 'c' && Themes[1].id[0] == 'l' && Themes[2].id[0] == 'p';
    assert Themes[3].id[0] == 'o' && Themes[4].id[0] == 't';
  }

  /** Every theme of the catalog has the common shape. */
  lemma CatalogWellFormed()
    ensures forall i :: 0 <= i < |Themes| ==> WellFormedTheme(Themes[i])
  {
    forall i | 0 <= i < |Themes|
      ensures WellFormedTheme(Themes[i])
    {
      if i == 0 {
        ClimatSocialWellFormed();
      } else if i == 1 {
        LeadershipWellFormed();
      } else if i == 2 {
        PerformanceWellFormed();
      } else if i == 3 {
        OrganisationWellFormed();
      } else {
        TalentsWellFormed();
      }
    }
  }

  lemma ClimatSocialWellFormed()
    ensures WellFormedTheme(ClimatSocial)
  {
  }

  lemma LeadershipWellFormed()
    ensures WellFormedTheme(Leadership)
  {
  }

  lemma PerformanceWellFormed()
    ensures WellFormedTheme(Performance)
  {
  }

  lemma OrganisationWellFormed()
    ensures WellFormedTheme(Organisation)
  {
  }

  lemma TalentsWellFormed()
    ensures WellFormedTheme(Talents)
  {
  }

  /** All five themes use the same band boundaries, [15,29], [30,39],
      [40,49], [50,60], so the fixed 50/40/30 thresholds of the views line up
      with every table. */
  lemma SharedBounds()
    ensures forall i :: 0 <= i < |Themes| ==> Bounds(Themes[i].scoreRanges) == StandardBounds
  {
    assert Bounds(ClimatSocial.scoreRanges) == StandardBounds;
    assert Bounds(Leadership.scoreRanges) == StandardBounds;
    assert Bounds(Performance.scoreRanges) == StandardBounds;
    assert Bounds(Organisation.scoreRanges) == StandardBounds;
    assert Bounds(Talents.scoreRanges) == StandardBounds;
  }

  /** The answer values are 1, 2, 3, 4 in that order, and nothing else. */
  lemma AnswerScale()
    ensures |AnswerOptions| == 4
    ensures forall i :: 0 <= i < |AnswerOptions| ==> AnswerOptions[i].value == i + 1
    ensures forall v :: IsAnswerValue(v) <==> 1 <= v <= 4
  {
    forall v | 1 <= v <= 4
      ensures IsAnswerValue(v)
    {
      assert AnswerOptions[v - 1].value == v;
    }
  }

  /** In a tiling, every band ends before any later band begins. */
  lemma {:induction false} TilesOrdered(ranges: seq<ScoreRange>, lo: int, hi: int, i: int, j: int)
    requires Tiles(ranges, lo, hi)
    requires 0 <= i < j < |ranges|
    ensures ranges[i].max < ranges[j].min
    decreases j - i
  {
    if j > i + 1 {
      TilesOrdered(ranges, lo, hi, i, j - 1);
    }
  }

  /** In a tiling, no score lies in two different bands. */
  lemma TilesDisjoint(ranges: seq<ScoreRange>, lo: int, hi: int, score: int)
    requires Tiles(ranges, lo, hi)
    ensures forall i, j ::
      0 <= i < |ranges| && 0 <= j < |ranges| && InRange(ranges[i], score) && InRange(ranges[j], score) ==> i == j
  {
    forall i, j | 0 <= i < j < |ranges|
      ensures !(InRange(ranges[i], score) && InRange(ranges[j], score))
    {
      TilesOrdered(ranges, lo, hi, i, j);
    }
  }

  /** In a tiling, every score of [lo, hi] lies in some band. */
  lemma {:induction false} TilesCover(ranges: seq<ScoreRange>, lo: int, hi: int, score: int)
    requires Tiles(ranges, lo, hi)
    requires lo <= score <= hi
    ensures exists i :: 0 <= i < |ranges| && InRange(ranges[i], score)
    decreases |ranges|
  {
    if score <= ranges[0].max {
      assert InRange(ranges[0], score);
    } else {
      var rest := ranges[1..];
      assert Tiles(rest, ranges[0].max + 1, hi);
      TilesCover(rest, ranges[0].max + 1, hi, score);
      var k :| 0 <= k < |rest| && InRange(rest[k], score);
      assert InRange(ranges[k + 1], score);
    }
  }

  /** In a tiling, no band holds a score outside [lo, hi]. */
  lemma TilesOutside(ranges: seq<ScoreRange>, lo: int, hi: int, score: int)
    requires Tiles(ranges, lo, hi)
    requires score < lo || hi < score
    ensures forall i :: 0 <= i < |ranges| ==> !InRange(ranges[i], score)
  {
    forall i | 0 < i < |ranges|
      ensures lo < ranges[i].min
    {
      TilesOrdered(ranges, lo, hi, 0, i);
    }
    forall i | 0 <= i < |ranges| - 1
      ensures ranges[i].max < hi
    {
      TilesOrdered(ranges, lo, hi, i, |ranges| - 1);
    }
  }

  /** Position `i` holds the first theme of `themes` whose id is `id`. */
  predicate IsFirstWithId(themes: seq<Theme>, id: string, i: int) {
    0 <= i < |themes| && themes[i].id == id && forall j :: 0 <= j < i ==> themes[j].id != id
  }

  /** `themes.find(t => t.id === id)`: the first theme carrying `id`, if any. */
  function FindThemeIn(themes: seq<Theme>, id: string): (r: Option<Theme>)
    ensures r.Some? ==> r.value in themes && r.value.id == id
    ensures r.None? <==> forall i :: 0 <= i < |themes| ==> themes[i].id != id
    ensures forall i :: IsFirstWithId(themes, id, i) ==> r == Some(themes[i])
    decreases |themes|
  {
    if |themes| == 0 then None
    else if themes[0].id == id then Some(themes[0])
    else FindThemeIn(themes[1..], id)
  }

  /** Theme lookup in the catalog by id. */
  function FindTheme(id: string): Option<Theme> {
    FindThemeIn(Themes, id)
  }

  /** Looking up a catalog theme by its own id finds that theme. */
  lemma FindThemeById(i: int)
    requires 0 <= i < |Themes|
    ensures FindTheme(Themes[i].id) == Some(Themes[i])
  {
    ThemeIdsDistinct();
  }
}
