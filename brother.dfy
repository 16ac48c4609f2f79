/** A brother of the lodge: degree, office, and the names the app shows
    in the app. Instants are whole seconds. */
module Brothers {
  import opened Wrappers

  datatype MasonicDegree = Apprendista | Compagno | Maestro {
    function RawValue(): string {
      match this
      case Apprendista => "Apprendista"
      case Compagno => "Compagno"
      case Maestro => "Maestro"
    }
  }

  /** The offices of the lodge; `Nessuno` is Swift's `.none`. */
  datatype InstitutionalRole =
    | Nessuno | VenerabileMaestro | PrimoSorvegliante | SecondoSorvegliante | Oratore | Segretario
    | Tesoriere | Ospitaliere | MaestroCerimonie | CopritoreInterno | CopritoreEsterno
  {
    function RawValue(): string {
      match this
      case Nessuno => "Nessuno"
      case VenerabileMaestro => "Ven.mo Maestro"
      case PrimoSorvegliante => "1° Sorvegliante"
      case SecondoSorvegliante => "2° Sorvegliante"
      case Oratore => "Oratore"
      case Segretario => "Segretario"
      case Tesoriere => "Tesoriere"
      case Ospitaliere => "Ospitaliere"
      case MaestroCerimonie => "Maestro delle Cerimonie"
      case CopritoreInterno => "Copritore Interno"
      case CopritoreEsterno => "Copritore Esterno"
    }
  }

  datatype Brother = Brother(
    id: int,
    nome: string,
    firstName: string,
    lastName: string,
    email: string,
    grado: string,
    degree: MasonicDegree,
    caricaFissa: Option<string>,
    role: InstitutionalRole,
    isAdmin: bool,
    registrationDate: int,
    dataIniziazione: Option<int>,
    dataPassaggio: Option<int>,
    dataElevazione: Option<int>)
  {
    /** `fullName`: first and last name with one space between. */
    function FullName(): (s: string)
      ensures |s| == |firstName| + 1 + |lastName|
      ensures s[..|firstName|] == firstName && s[|firstName|] == ' ' && s[|firstName| + 1..] == lastName
    {
      firstName + " " + lastName
    }

    /** `displayRole`: the office, or the degree when there is none, then
        a dash and the full name. */
    function DisplayRole(): (s: string)
      ensures var title := if role != Nessuno then role.RawValue() else degree.RawValue();
        |s| == |title| + 3 + |FullName()|
        && s[..|title|] == title && s[|title|..|title| + 3] == " – " && s[|title| + 3..] == FullName()
    {
      var title := if role != Nessuno then role.RawValue() else degree.RawValue();
      var s := title + " – " + FullName();
      assert s[|title|..|title| + 3] == " – ";
      s
    }
  }

  /** `Brother.init`: with no office, no admin rights, registered `now`,
      and the full name and degree name filling `nome` and `grado` unless
      they are given. */
  function MakeBrother(id: int, firstName: string, lastName: string, email: string, degree: MasonicDegree,
                       now: int, nome: Option<string> := None, grado: Option<string> := None,
                       caricaFissa: Option<string> := None, role: InstitutionalRole := Nessuno,
                       isAdmin: bool := false, registrationDate: Option<int> := None,
                       dataIniziazione: Option<int> := None, dataPassaggio: Option<int> := None,
                       dataElevazione: Option<int> := None): (b: Brother)
    ensures b.id == id && b.firstName == firstName && b.lastName == lastName && b.email == email
    ensures b.nome == (if nome.Some? then nome.value else b.FullName())
    ensures b.grado == (if grado.Some? then grado.value else degree.RawValue())
    ensures b.degree == degree && b.caricaFissa == caricaFissa && b.role == role && b.isAdmin == isAdmin
    ensures b.registrationDate == (if registrationDate.Some? then registrationDate.value else now)
    ensures b.dataIniziazione == dataIniziazione && b.dataPassaggio == dataPassaggio
    ensures b.dataElevazione == dataElevazione
  {
    Brother(id, nome.GetOr(firstName + " " + lastName), firstName, lastName, email, grado.GetOr(degree.RawValue()),
            degree, caricaFissa, role, isAdmin, registrationDate.GetOr(now), dataIniziazione, dataPassaggio,
            dataElevazione)
  }

  /** A brother built from names and degree alone holds no office, so
      the degree heads the display name. */
  lemma DefaultsDisplayDegree(id: int, firstName: string, lastName: string, email: string,
                              degree: MasonicDegree, now: int)
    ensures var b := MakeBrother(id, firstName, lastName, email, degree, now);
      b.role == Nessuno && !b.isAdmin && b.nome == b.FullName() && b.grado == degree.RawValue()
      && b.DisplayRole() == degree.RawValue() + " – " + b.FullName()
  {
  }
}
