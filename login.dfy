/**
 * The login prompt of the Streamlit Google OAuth helper: a style block
 * followed by one of three HTML templates, with the authorization url
 * substituted by `str.format`.
 */
module LoginMessage {
  import opened Wrappers
  import opened PyText

  const LOGIN_STYLE :=
    "<style>.login-style {    color: black;    font-size: 18px;    background-color: #DDEBFF;    padding: 20px;    border-radius: 10px;}</style>"

  const FIELD := "AUTHORIZATION_URL"

  /** Why `str.format` rejects a template: a `KeyError`, or one of three `ValueError`s. */
  datatype FormatError =
    | UnknownField(field: string)   // KeyError: a name other than the keyword given
    | UnmatchedOpen                 // ValueError: a `{` with no `}` after it
    | UnmatchedClose                // ValueError: a single `}` outside a field
    | OpenInFieldName               // ValueError: a `{` inside a field name

  /**
   * `template.format(**{field: value})` for templates whose replacement
   * fields are plain names: `{{` and `}}` stand for single braces, `{field}`
   * is replaced by `value`, any other name is a `KeyError`, and an unpaired
   * brace or a `{` inside a name is a `ValueError`.
   */
  function Format(template: string, field: string, value: string): Result<string, FormatError>
    decreases |template|
  {
    if template == [] then Ok("")
    else if template[0] == '{' then
      if |template| > 1 && template[1] == '{' then Prefix("{", Format(template[2..], field, value))
      else match IndexOf(template[1..], '}')
        case None => Err(UnmatchedOpen)
        case Some(k) =>
          if '{' in template[1..k + 1] then Err(OpenInFieldName)
          else if template[1..k + 1] == field then Prefix(value, Format(template[k + 2..], field, value))
          else Err(UnknownField(template[1..k + 1]))
    else if template[0] == '}' then
      if |template| > 1 && template[1] == '}' then Prefix("}", Format(template[2..], field, value))
      else Err(UnmatchedClose)
    else Prefix([template[0]], Format(template[1..], field, value))
  }

  function Prefix(s: string, r: Result<string, FormatError>): Result<string, FormatError> {
    match r
    case Ok(t) => Ok(s + t)
    case Err(e) => Err(e)
  }

  predicate NoBraces(s: string) {
    '{' !in s && '}' !in s
  }

  /** Text without braces is copied unchanged. */
  lemma {:induction false} FormatLiteral(text: string, rest: string, field: string, value: string)
    requires NoBraces(text)
    ensures Format(text + rest, field, value) == Prefix(text, Format(rest, field, value))
    decreases |text|
  {
    if text == [] {
      assert text + rest == rest;
      match Format(rest, field, value)
      case Ok(t) => assert "" + t == t;
      case Err(_) =>
    } else {
      assert (text + rest)[0] == text[0];
      assert (text + rest)[1..] == text[1..] + rest;
      FormatLiteral(text[1..], rest, field, value);
      match Format(rest, field, value)
      case Ok(t) => assert [text[0]] + (text[1..] + t) == text + t;
      case Err(_) =>
    }
  }

  /**
   * A `{` inside a field name is rejected before the name is looked up, even
   * when it is the keyword given (a `{` right after the opening one would
   * instead make `{{`, an escaped brace).
   */
  lemma OpenInNameRejected(name: string, rest: string, value: string)
    requires '{' in name && '}' !in name && name[0] != '{'
    ensures Format("{" + name + "}" + rest, name, value) == Err(OpenInFieldName)
  {
    var t := "{" + name + "}" + rest;
    assert t[1] == name[0];
    assert t[1..] == name + "}" + rest;
    IndexOfAfter(name, '}', rest);
    assert t[1..|name| + 1] == name;
  }

  /** The field `{field}` is replaced by the value. */
  lemma FormatField(field: string, rest: string, value: string)
    requires NoBraces(field) && field != ""
    ensures Format("{" + field + "}" + rest, field, value) == Prefix(value, Format(rest, field, value))
  {
    var t := "{" + field + "}" + rest;
    assert t[0] == '{' && t[1] == field[0];
    assert t[1..] == field + "}" + rest;
    assert IndexOf(t[1..], '}') == Some(|field|) by {
      IndexOfAfter(field, '}', rest);
    }
    assert t[1..|field| + 1] == field;
    assert t[|field| + 2..] == rest;
  }

  /** A template holding one `{field}` between brace-free text formats to that text around the value. */
  lemma FormatSingleField(before: string, after: string, field: string, value: string)
    requires NoBraces(before) && NoBraces(after) && NoBraces(field) && field != ""
    ensures Format(before + "{" + field + "}" + after, field, value) == Ok(before + value + after)
  {
    assert before + "{" + field + "}" + after == before + ("{" + field + "}" + after);
    FormatLiteral(before, "{" + field + "}" + after, field, value);
    FormatField(field, after, value);
    FormatLiteral(after, "", field, value);
    assert after + "" == after;
    assert Format("", field, value) == Ok("");
    assert Format(after, field, value) == Ok(after);
    assert before + (value + after) == before + value + after;
  }

  // ===== the three templates, each brace-free text around `{AUTHORIZATION_URL}`

  const PARAGRAPH := "<p class='login-style'>"
  const LINK := "<a target='_self' href='"
  const URL_AFTER := "'>url</a></p>"
  const LOGIN_AFTER := "'>login</a></p>"

  const LOGIN_BEFORE := PARAGRAPH + "Please login using this " + LINK
  const RETRY_BEFORE :=
    PARAGRAPH + "This account is not " + "allowed or page was " + "refreshed. " + "Please try again: " + LINK
  const EXPIRED_BEFORE := PARAGRAPH + "Login session has ended, " + "please " + LINK

  const LOGIN_HTML := LOGIN_BEFORE + "{" + FIELD + "}" + URL_AFTER
  const RETRY_HTML := RETRY_BEFORE + "{" + FIELD + "}" + URL_AFTER
  const TOKEN_EXPIRED_HTML := EXPIRED_BEFORE + "{" + FIELD + "}" + LOGIN_AFTER

  lemma NoBracesConcat(a: string, b: string)
    requires NoBraces(a) && NoBraces(b)
    ensures NoBraces(a + b)
  {
  }

  lemma PiecesPlain()
    ensures NoBraces(PARAGRAPH) && NoBraces(LINK) && NoBraces(FIELD)
    ensures NoBraces(URL_AFTER) && NoBraces(LOGIN_AFTER)
  {
    PlainParagraph();
    PlainLink();
    PlainField();
    PlainAfter();
  }

  lemma PlainParagraph() ensures NoBraces(PARAGRAPH) {}
  lemma PlainLink() ensures NoBraces(LINK) {}
  lemma PlainField() ensures NoBraces(FIELD) {}
  lemma PlainAfter() ensures NoBraces(URL_AFTER) && NoBraces(LOGIN_AFTER) {}
  lemma PlainLogin() ensures NoBraces("Please login using this ") {}
  lemma PlainRetry()
    ensures NoBraces("This account is not ") && NoBraces("allowed or page was ")
    ensures NoBraces("refreshed. ") && NoBraces("Please try again: ")
  {
    PlainRetry1();
    PlainRetry2();
    PlainRetry3();
  }
  lemma PlainRetry1() ensures NoBraces("This account is not ") {}
  lemma PlainRetry2() ensures NoBraces("allowed or page was ") {}
  lemma PlainRetry3() ensures NoBraces("refreshed. ") && NoBraces("Please try again: ") {}
  lemma PlainExpired() ensures NoBraces("Login session has ended, ") && NoBraces("please ") {
    PlainExpired1();
  }
  lemma PlainExpired1() ensures NoBraces("Login session has ended, ") {}

  /** The text before each template's field holds no braces. */
  lemma BeforesPlain()
    ensures NoBraces(LOGIN_BEFORE) && NoBraces(RETRY_BEFORE) && NoBraces(EXPIRED_BEFORE)
  {
    PiecesPlain();
    PlainLogin();
    NoBracesConcat(PARAGRAPH, "Please login using this ");
    NoBracesConcat(PARAGRAPH + "Please login using this ", LINK);
    PlainRetry();
    NoBracesConcat(PARAGRAPH, "This account is not ");
    NoBracesConcat(PARAGRAPH + "This account is not ", "allowed or page was ");
    NoBracesConcat(PARAGRAPH + "This account is not " + "allowed or page was ", "refreshed. ");
    NoBracesConcat(PARAGRAPH + "This account is not " + "allowed or page was " + "refreshed. ", "Please try again: ");
    NoBracesConcat(PARAGRAPH + "This account is not " + "allowed or page was " + "refreshed. " + "Please try again: ", LINK);
    PlainExpired();
    NoBracesConcat(PARAGRAPH, "Login session has ended, ");
    NoBracesConcat(PARAGRAPH + "Login session has ended, ", "please ");
    NoBracesConcat(PARAGRAPH + "Login session has ended, " + "please ", LINK);
  }

  /** The three login types of `get_login_message`. */
  datatype LoginType = Initial | Retry | Expired

  /** The login type named by `login_type`: anything but "initial" and "retry" selects the expired template. */
  function ParseLoginType(loginType: string): (t: LoginType)
    ensures t == Initial <==> loginType == "initial"
    ensures t == Retry <==> loginType == "retry"
  {
    if loginType == "initial" then Initial
    else if loginType == "retry" then Retry
    else Expired
  }

  /** The template chosen for a login type, as text before the field and text after it. */
  function Before(t: LoginType): string {
    match t
    case Initial => LOGIN_BEFORE
    case Retry => RETRY_BEFORE
    case Expired => EXPIRED_BEFORE
  }

  function After(t: LoginType): string {
    match t
    case Initial => URL_AFTER
    case Retry => URL_AFTER
    case Expired => LOGIN_AFTER
  }

  function Template(t: LoginType): (template: string)
    ensures t == Initial ==> template == LOGIN_HTML
    ensures t == Retry ==> template == RETRY_HTML
    ensures t == Expired ==> template == TOKEN_EXPIRED_HTML
  {
    Before(t) + "{" + FIELD + "}" + After(t)
  }

  /** Every template formats without error, placing the url between its two brace-free halves. */
  lemma TemplateFormats(t: LoginType, url: string)
    ensures Format(Template(t), FIELD, url) == Ok(Before(t) + url + After(t))
  {
    BeforesPlain();
    PiecesPlain();
    FormatSingleField(Before(t), After(t), FIELD, url);
  }

  /**
   * `get_login_message`: the style block followed by the chosen template
   * formatted with the authorization url.
   */
  function GetLoginMessage(url: string, loginType: string): (html: string)
    ensures var t := ParseLoginType(loginType);
      html == LOGIN_STYLE + Before(t) + url + After(t)
    ensures loginType == "initial" ==> html == LOGIN_STYLE + LOGIN_BEFORE + url + URL_AFTER
    ensures loginType == "retry" ==> html == LOGIN_STYLE + RETRY_BEFORE + url + URL_AFTER
    ensures loginType != "initial" && loginType != "retry" ==>
      html == LOGIN_STYLE + EXPIRED_BEFORE + url + LOGIN_AFTER
  {
    var t := ParseLoginType(loginType);
    TemplateFormats(t, url);
    var formatted := Format(Template(t), FIELD, url);
    LOGIN_STYLE + formatted.value
  }

  /** Only the url varies: for a fixed login type, different urls give different messages. */
  lemma MessageInjective(url1: string, url2: string, loginType: string)
    requires GetLoginMessage(url1, loginType) == GetLoginMessage(url2, loginType)
    ensures url1 == url2
  {
    var t := ParseLoginType(loginType);
    CancelBetween(LOGIN_STYLE + Before(t), url1, url2, After(t));
  }

  /** A common prefix and suffix cancel from both sides of an equation. */
  lemma CancelBetween(p: string, u1: string, u2: string, s: string)
    requires p + u1 + s == p + u2 + s
    ensures u1 == u2
  {
    var h1, h2 := p + u1 + s, p + u2 + s;
    assert |u1| == |u2|;
    assert u1 == h1[|p|..|p| + |u1|];
    assert u2 == h2[|p|..|p| + |u2|];
  }

  /** The message holds the url verbatim, right after the style block and the link opening. */
  lemma UrlInMessage(url: string, loginType: string)
    ensures var t := ParseLoginType(loginType);
      var html, i := GetLoginMessage(url, loginType), |LOGIN_STYLE| + |Before(t)|;
      i + |url| <= |html| && html[..i] == LOGIN_STYLE + Before(t) && html[i..i + |url|] == url
  {
    var t := ParseLoginType(loginType);
    Between(LOGIN_STYLE + Before(t), url, After(t));
  }

  /** Every template's first half ends with the opening of the link whose target is the url. */
  lemma BeforeEndsWithLink(t: LoginType)
    ensures |LINK| <= |Before(t)| && Before(t)[|Before(t)| - |LINK|..] == LINK
  {
    match t
    case Initial => EndsWith(PARAGRAPH + "Please login using this ", LINK);
    case Retry =>
      EndsWith(PARAGRAPH + "This account is not " + "allowed or page was " + "refreshed. " + "Please try again: ", LINK);
    case Expired => EndsWith(PARAGRAPH + "Login session has ended, " + "please ", LINK);
  }

  lemma Between(p: string, u: string, s: string)
    ensures |p| + |u| <= |p + u + s|
    ensures (p + u + s)[..|p|] == p && (p + u + s)[|p|..|p| + |u|] == u
  {
  }

  lemma EndsWith(a: string, b: string)
    ensures (a + b)[|a|..] == b
  {
  }
}
