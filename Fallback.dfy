/**
 * The content compiled into the client bundle: three programs and two
 * services, all programs sharing one author record. The client falls back to
 * these tables whenever the content service cannot be reached.
 */
module Fallback {
  import opened Types

  const ClaudioReyes: Author := Author(
    "Claudio Reyes Vera",
    "Psicólogo Clínico Transdisciplinario",
    "claudio-reyes.jpg")

  /** The anxiety program. */
  const Angustia: Program :=
    Program(
      "p_angustia",
      "programa-angustia",
      "Redefinir la Angustia",
      "Reprogramación Emocional",
      250000,
      "Un proceso clínico para resignificar el miedo a la pérdida y restaurar el vínculo interno.",
      "La angustia no es enemiga; es una señal de desconexión profunda. Vivir en estado de alerta constante erosiona tu capacidad de confiar. Transita desde la parálisis hacia la seguridad interna.",
      "¿El miedo decide por ti?",
      [ "Hipervigilancia constante.",
        "Sensación inminente de catástrofe.",
        "Incapacidad para habitar el presente." ],
      [ GridItem("Neurociencia", "Regulación vagal."),
        GridItem("Vínculo", "Seguridad interna."),
        GridItem("Cuerpo", "Habitar la calma."),
        GridItem("Mente", "Claridad cognitiva.") ],
      [ GridItem("Semanas 1-2", "Desactivar Alerta: Protocolos de seguridad."),
        GridItem("Semanas 3-4", "Restauración: Construir confianza básica.") ],
      "4 Semanas",
      true,
      "program-angustia.png",
      ClaudioReyes)

  /** The guilt program. */
  const Culpa: Program :=
    Program(
      "p_culpa",
      "programa-culpa",
      "Redefinir la Culpa",
      "Reprogramación Cognitiva",
      250000,
      "Transformar el castigo en responsabilidad soberana y desactivar el autoataque.",
      "La culpa tóxica es un mecanismo de control interno que drena nuestra vitalidad. Aprende a distinguir entre la culpa neurótica y la responsabilidad ética para recuperar tu paz.",
      "¿Te castigas por existir?",
      [ "Rumiación mental obsesiva.",
        "Sensación de no ser suficiente.",
        "Autoexigencia destructiva." ],
      [ GridItem("Ética", "Responsabilidad real."),
        GridItem("Compasión", "Cese del fuego."),
        GridItem("Dignidad", "Soberanía personal."),
        GridItem("Acción", "Reparación efectiva.") ],
      [ GridItem("Semanas 1-2", "Culpa vs Responsabilidad: Distinciones."),
        GridItem("Semanas 3-4", "Desactivar Autoataque: Paz interna.") ],
      "4 Semanas",
      true,
      "program-culpa.png",
      ClaudioReyes)

  /** The irritability program. */
  const Irritabilidad: Program :=
    Program(
      "p_irritabilidad",
      "programa-irritabilidad",
      "Redefinir la Irritabilidad",
      "Reprogramación Focalizada",
      250000,
      "Un proceso profundo para resignificar la irritabilidad desde el amor propio.",
      "La discrepancia entre la realidad y nuestras expectativas genera una fricción sistémica. La irritabilidad mantiene al sistema nervioso en alerta constante, erosionando tu vitalidad.",
      "¿Cuándo deja de ser una señal?",
      [ "Tensión corporal acumulada.",
        "Erosión de la energía vital.",
        "Debilitamiento de vínculos." ],
      [ GridItem("Neurociencia", "Calma fisiológica."),
        GridItem("Presencia", "Habitar sin lucha."),
        GridItem("Reprogramar", "PNL y juicios."),
        GridItem("Amor Propio", "Autocompasión.") ],
      [ GridItem("Semanas 1-2", "Descomprimir: reactividad y seguridad."),
        GridItem("Semanas 3-4", "Reorganizar: identidad y amor propio.") ],
      "4 Semanas",
      true,
      "program-irritabilidad.jpg",
      ClaudioReyes)

  /** The compiled-in programs, in bundle order. */
  const FallbackPrograms: seq<Program> := [Angustia, Culpa, Irritabilidad]

  /** The psychiatry service. */
  const Psiquiatria: Service :=
    Service(
      "s_psiquiatria",
      "psiquiatria",
      "Psiquiatría y Diagnóstico",
      "Enfoque Transdisciplinario y Neurociencia Afectiva",
      "En Equilibrar, la psiquiatría trasciende la prescripción convencional.",
      [ "Diagnóstico transdisciplinario integral.",
        "Neurociencia afectiva aplicada a la clínica.",
        "Integración con medicina oriental.",
        "Farmacología consciente y supervisada." ],
      "service-detail-psychiatry.jpg",
      "Agendar sesión vía WhatsApp",
      "Hola, me interesa agendar una hora de Psiquiatría/Diagnóstico.")

  /** The clinical psychology service. */
  const Psicologia: Service :=
    Service(
      "s_psicologia",
      "psicologia",
      "Psicología Clínica",
      "Regulación Somática y Vínculo Terapéutico",
      "La sanación real ocurre en el contexto de un vínculo seguro.",
      [ "Terapia centrada en la regulación somática.",
        "Fortalecimiento del vínculo terapéutico.",
        "Desarrollo de resiliencia emocional.",
        "Enfoque en trauma y apego." ],
      "service-detail-psychology.jpg",
      "Agendar sesión vía WhatsApp",
      "Hola, quisiera consultar por disponibilidad para Psicología Clínica.")

  /** The compiled-in services, in bundle order. */
  const FallbackServices: seq<Service> := [Psiquiatria, Psicologia]

  /** Every id of both tables, programs first. */
  function AllIds(): (ids: seq<string>)
    ensures |ids| == |FallbackPrograms| + |FallbackServices|
    ensures forall i :: 0 <= i < |FallbackPrograms| ==> ids[i] == FallbackPrograms[i].id
    ensures forall i :: 0 <= i < |FallbackServices| ==> ids[|FallbackPrograms| + i] == FallbackServices[i].id
  {
    seq(|FallbackPrograms|, i requires 0 <= i < |FallbackPrograms| => FallbackPrograms[i].id) +
    seq(|FallbackServices|, i requires 0 <= i < |FallbackServices| => FallbackServices[i].id)
  }

  /** The slugs of both tables, in order. */
  lemma Slugs()
    ensures |FallbackPrograms| == 3 && |FallbackServices| == 2
    ensures FallbackPrograms[0].slug == "programa-angustia"
    ensures FallbackPrograms[1].slug == "programa-culpa"
    ensures FallbackPrograms[2].slug == "programa-irritabilidad"
    ensures FallbackServices[0].slug == "psiquiatria"
    ensures FallbackServices[1].slug == "psicologia"
  {
  }

  /** Program slugs are non-empty and pairwise distinct. */
  lemma ProgramSlugsUnique()
    ensures forall i :: 0 <= i < |FallbackPrograms| ==> FallbackPrograms[i].slug != ""
    ensures forall a, b :: 0 <= a < b < |FallbackPrograms| ==> FallbackPrograms[a].slug != FallbackPrograms[b].slug
  {
  }

  /** Service slugs are non-empty and pairwise distinct. */
  lemma ServiceSlugsUnique()
    ensures forall i :: 0 <= i < |FallbackServices| ==> FallbackServices[i].slug != ""
    ensures forall a, b :: 0 <= a < b < |FallbackServices| ==> FallbackServices[a].slug != FallbackServices[b].slug
  {
  }

  /** The five ids are pairwise distinct across both tables. */
  lemma IdsUnique()
    ensures |AllIds()| == 5
    ensures forall a, b :: 0 <= a < b < |AllIds()| ==> AllIds()[a] != AllIds()[b]
  {
  }

  /** Fixed price, duration, delivery mode, section sizes and author of every program. */
  lemma ProgramShape(p: Program)
    requires p in FallbackPrograms
    ensures p.price == 250000 && p.duration == "4 Semanas" && p.isOnline
    ensures |p.problemPoints| == 3 && |p.solutionGrid| == 4 && |p.structure| == 2
    ensures p.author == ClaudioReyes
  {
  }

  /** Every service lists four intervention points and the same call-to-action text. */
  lemma ServiceShape(s: Service)
    requires s in FallbackServices
    ensures |s.interventionPoints| == 4
    ensures s.ctaText == "Agendar sesión vía WhatsApp"
  {
  }

  /** Looking up "programa-culpa" finds "Redefinir la Culpa" at 250000. */
  lemma CulpaLookup()
    ensures Find(FallbackPrograms, ProgramSlug, "programa-culpa").Some?
    ensures Find(FallbackPrograms, ProgramSlug, "programa-culpa").value.title == "Redefinir la Culpa"
    ensures Find(FallbackPrograms, ProgramSlug, "programa-culpa").value.price == 250000
  {
    ProgramSlugsUnique();
    FindUnique(FallbackPrograms, ProgramSlug, 1);
  }
}
