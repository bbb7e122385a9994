/** The item catalogue of the Barthel Index of Activities of Daily Living
    (Mahoney and Barthel, 1965): ten items, each with its options ordered from
    most to least independent and the original weights 0, 5, 10 and 15. */
module Barthel {

  /** One answer option of an item: the points it is worth and its text. */
  datatype AnswerOption = AnswerOption(value: int, caption: string, description: string)

  /** One item of the index. */
  datatype Question = Question(id: string, question: string, description: string, options: seq<AnswerOption>)

  /** Feeding. */
  const Comida: Question := Question(
    "comida",
    "Comida",
    "Capacidad para comer por sí mismo",
    [
      AnswerOption(10, "Independiente",
        "Capaz de comer por sí solo en un tiempo razonable. La comida puede ser cocinada y servida por otra persona."),
      AnswerOption(5, "Necesita ayuda",
        "Para cortar la carne, extender la mantequilla... pero es capaz de comer solo/a."),
      AnswerOption(0, "Dependiente",
        "Necesita ser alimentado por otra persona.")
    ])

  /** Bathing. */
  const Lavado: Question := Question(
    "lavado",
    "Lavado (Baño)",
    "Capacidad para lavarse solo",
    [
      AnswerOption(5, "Independiente",
        "Capaz de lavarse entero, de entrar y salir del baño sin ayuda."),
      AnswerOption(0, "Dependiente",
        "Necesita algún tipo de ayuda o supervisión.")
    ])

  /** Dressing. */
  const Vestido: Question := Question(
    "vestido",
    "Vestirse",
    "Capacidad para ponerse y quitarse la ropa",
    [
      AnswerOption(10, "Independiente",
        "Capaz de ponerse y quitarse la ropa sin ayuda."),
      AnswerOption(5, "Necesita ayuda",
        "Realiza sin ayuda más de la mitad de estas tareas."),
      AnswerOption(0, "Dependiente",
        "Necesita ayuda para la mayor parte de las tareas de vestirse.")
    ])

  /** Grooming. */
  const Arreglo: Question := Question(
    "arreglo",
    "Arreglo personal",
    "Capacidad para arreglarse y mantener la higiene personal",
    [
      AnswerOption(5, "Independiente",
        "Realiza todas las actividades personales sin ayuda alguna."),
      AnswerOption(0, "Dependiente",
        "Necesita alguna ayuda para realizar el arreglo personal.")
    ])

  /** Bowel control. */
  const Deposicion: Question := Question(
    "deposicion",
    "Deposición",
    "Control de la deposición",
    [
      AnswerOption(10, "Continente",
        "No presenta episodios de incontinencia."),
      AnswerOption(5, "Accidente ocasional",
        "Menos de una vez por semana o necesita ayuda para colocar enemas o supositorios."),
      AnswerOption(0, "Incontinente",
        "Presenta más de un episodio semanal de incontinencia.")
    ])

  /** Bladder control. */
  const Miccion: Question := Question(
    "miccion",
    "Micción",
    "Control de la micción",
    [
      AnswerOption(10, "Continente",
        "No presenta episodios de incontinencia en la micción."),
      AnswerOption(5, "Accidente ocasional",
        "Un máximo de un episodio en 24 horas."),
      AnswerOption(0, "Incontinente",
        "Presenta más de un episodio en 24 horas.")
    ])

  /** Toilet use. */
  const Retrete: Question := Question(
    "retrete",
    "Uso del retrete",
    "Capacidad para utilizar el retrete de forma autónoma",
    [
      AnswerOption(10, "Independiente",
        "Entra y sale del retrete por sí solo sin requerir ayuda."),
      AnswerOption(5, "Necesita ayuda",
        "Requiere una pequeña ayuda para acceder o utilizarlo."),
      AnswerOption(0, "Dependiente",
        "Incapaz de acceder o utilizar el retrete sin asistencia mayor.")
    ])

  /** Chair/bed transfers. */
  const Transferencias: Question := Question(
    "transferencias",
    "Transferencias",
    "Capacidad para transferirse de la cama o silla",
    [
      AnswerOption(15, "Independiente",
        "No requiere ayuda para sentarse o levantarse de una silla o cama."),
      AnswerOption(10, "Mínima ayuda",
        "Requiere supervisión o una pequeña ayuda física para transferirse."),
      AnswerOption(5, "Gran ayuda",
        "Precisa ayuda de una persona fuerte para realizar la transferencia."),
      AnswerOption(0, "Dependiente",
        "Necesita una grúa o la asistencia de dos personas para transferirse.")
    ])

  /** Mobility on level surfaces. */
  const Deambulacion: Question := Question(
    "deambulacion",
    "Deambulación",
    "Capacidad para caminar o desplazarse",
    [
      AnswerOption(15, "Independiente",
        "Puede caminar 50 metros o su equivalente en el hogar sin ayuda."),
      AnswerOption(10, "Necesita ayuda",
        "Requiere supervisión o una pequeña ayuda física para caminar."),
      AnswerOption(5, "Independiente en silla de ruedas",
        "Puede desplazarse en silla de ruedas sin requerir ayuda ni supervisión."),
      AnswerOption(0, "Dependiente",
        "Necesita asistencia para desplazarse.")
    ])

  /** Stairs. */
  const Escaleras: Question := Question(
    "escaleras",
    "Subir y bajar escaleras",
    "Capacidad para subir y bajar escaleras de forma autónoma",
    [
      AnswerOption(10, "Independiente",
        "Capaz de subir y bajar un piso sin ayuda ni supervisión."),
      AnswerOption(5, "Necesita ayuda",
        "Requiere asistencia o supervisión para subir y bajar escaleras."),
      AnswerOption(0, "Dependiente",
        "Incapaz de subir escalones sin ayuda, requiere asistencia completa.")
    ])

  /** The ten items, in presentation order. */
  const Questions: seq<Question> :=
    [Comida, Lavado, Vestido, Arreglo, Deposicion, Miccion, Retrete, Transferencias, Deambulacion, Escaleras]

  /** The ids of a list of items, in order. */
  function Ids(qs: seq<Question>): (ids: seq<string>)
    ensures |ids| == |qs|
    ensures forall i :: 0 <= i < |qs| ==> ids[i] == qs[i].id
  {
    if qs == [] then [] else [qs[0].id] + Ids(qs[1..])
  }

  /** No id occurs twice. */
  predicate Distinct(ids: seq<string>)
  {
    forall i, j :: 0 <= i < j < |ids| ==> ids[i] != ids[j]
  }

  /** An item's options are non-empty, strictly decreasing in value, end with
      a 0-point option, and every value is 0, 5, 10 or 15. */
  predicate WellFormed(q: Question)
  {
    && |q.options| >= 1
    && (forall i, j :: 0 <= i < j < |q.options| ==> q.options[i].value > q.options[j].value)
    && q.options[|q.options| - 1].value == 0
    && (forall i :: 0 <= i < |q.options| ==> q.options[i].value in {0, 5, 10, 15})
  }

  /** The points of an item's first (most independent) option; 0 for an item
      without options. */
  function MaxPoints(q: Question): int
  {
    if q.options == [] then 0 else q.options[0].value
  }

  /** The sum of every item's first option: the best achievable total. */
  function TotalMax(qs: seq<Question>): int
  {
    if qs == [] then 0 else MaxPoints(qs[0]) + TotalMax(qs[1..])
  }

  /** The item ids, in presentation order. */
  const QuestionIds: seq<string> := ["comida", "lavado", "vestido", "arreglo", "deposicion",
                                     "miccion", "retrete", "transferencias", "deambulacion", "escaleras"]

  /** The item ids are pairwise distinct. */
  lemma QuestionIdsDistinct()
    ensures Distinct(QuestionIds)
  {
  }

  /** The ids of the catalogue are `QuestionIds`. */
  lemma CatalogueIds()
    ensures Ids(Questions) == QuestionIds
  {
    var ids := Ids(Questions);
    assert ids[0] == Questions[0].id == "comida";
    assert ids[1] == Questions[1].id == "lavado";
    assert ids[2] == Questions[2].id == "vestido";
    assert ids[3] == Questions[3].id == "arreglo";
    assert ids[4] == Questions[4].id == "deposicion";
    assert ids[5] == Questions[5].id == "miccion";
    assert ids[6] == Questions[6].id == "retrete";
    assert ids[7] == Questions[7].id == "transferencias";
    assert ids[8] == Questions[8].id == "deambulacion";
    assert ids[9] == Questions[9].id == "escaleras";
  }

  /** There are exactly ten items and their ids are pairwise distinct. */
  lemma CatalogueShape()
    ensures |Questions| == 10
    ensures Distinct(Ids(Questions))
  {
    CatalogueIds();
    QuestionIdsDistinct();
  }

  /** Every item's options are strictly decreasing, end at 0 and are multiples
      of 5 between 0 and 15. */
  lemma AllWellFormed()
    ensures forall i :: 0 <= i < |Questions| ==> WellFormed(Questions[i])
  {
  }

  /** The first option of a well-formed item is worth the most and every
      option is worth at least 0. */
  lemma MaxPointsIsMaximum(q: Question, k: nat)
    requires WellFormed(q) && k < |q.options|
    ensures 0 <= q.options[k].value <= MaxPoints(q)
  {
  }

  /** The first options add up to 100, the top of the Barthel scale. */
  lemma TotalMaxIsHundred()
    ensures TotalMax(Questions) == 100
  {
    var qs := Questions;
    assert TotalMax(qs[9..]) == 10;
    assert TotalMax(qs[8..]) == 15 + TotalMax(qs[9..]);
    assert TotalMax(qs[7..]) == 15 + TotalMax(qs[8..]);
    assert TotalMax(qs[6..]) == 10 + TotalMax(qs[7..]);
    assert TotalMax(qs[5..]) == 10 + TotalMax(qs[6..]);
    assert TotalMax(qs[4..]) == 10 + TotalMax(qs[5..]);
    assert TotalMax(qs[3..]) == 5 + TotalMax(qs[4..]);
    assert TotalMax(qs[2..]) == 10 + TotalMax(qs[3..]);
    assert TotalMax(qs[1..]) == 5 + TotalMax(qs[2..]);
  }

  /** Only "transferencias" and "deambulacion" have four options and can be
      worth 15 points; "lavado" and "arreglo" have two; the rest have three. */
  lemma OptionCounts()
    ensures forall i :: 0 <= i < |Questions| ==>
      |Questions[i].options| == (if Questions[i].id in {"transferencias", "deambulacion"} then 4
                                 else if Questions[i].id in {"lavado", "arreglo"} then 2
                                 else 3)
    ensures forall i, k :: (0 <= i < |Questions| && 0 <= k < |Questions[i].options| &&
      Questions[i].options[k].value == 15) ==> Questions[i].id in {"transferencias", "deambulacion"}
  {
  }
}
