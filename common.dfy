/** Values shared by the client pages and the services: the optional and
    error-carrying wrappers, and the interview's difficulty, language and turn role. */
module Common {

  datatype Option<+T> = None | Some(value: T) {
    function GetOr(default: T): T {
      match this
      case Some(v) => v
      case None => default
    }
  }

  datatype Result<+R, +E> = Ok(value: R) | Err(error: E)

  /** `AvatarType`: the interviewer's difficulty. */
  datatype Avatar = Easy | Medium | Hard

  /** `LanguageType`: the interview language. */
  datatype Lang = En | Ar | Fr | Es

  /** `TurnRole` */
  datatype Role = Ai | User

  function AvatarCode(a: Avatar): string {
    match a
    case Easy => "easy"
    case Medium => "medium"
    case Hard => "hard"
  }

  function LangCode(l: Lang): string {
    match l
    case En => "en"
    case Ar => "ar"
    case Fr => "fr"
    case Es => "es"
  }

  function RoleCode(r: Role): string {
    match r
    case Ai => "ai"
    case User => "user"
  }

  /** The language whose code is `s`, if `s` is one of the four codes. */
  function ParseLang(s: string): (r: Option<Lang>)
    ensures r.Some? ==> LangCode(r.value) == s
    ensures r.None? ==> forall l: Lang :: LangCode(l) != s
  {
    if s == "en" then Some(En)
    else if s == "ar" then Some(Ar)
    else if s == "fr" then Some(Fr)
    else if s == "es" then Some(Es)
    else None
  }

  lemma ParseLangCode(l: Lang)
    ensures ParseLang(LangCode(l)) == Some(l)
  {
  }
}
