/**
 * The contact-form helpers of the mailer: validation of the submitted form, the e-mail
 * pattern, the plain-text body and the line-break rule of the HTML body.
 */
module ContactEmail {
  import opened Wrappers
  import opened JsStrings
  import opened EmailPattern

  /** `ContactFormData`; company and project are optional. */
  datatype ContactFormData = ContactFormData(
    name: string, email: string, company: Option<string>, project: Option<string>, message: string)

  const NameRequired: string := "Name is required"
  const EmailRequired: string := "Email is required"
  const InvalidEmail: string := "Please enter a valid email address"
  const MessageRequired: string := "Message is required"
  const MessageTooShort: string := "Message must be at least 10 characters long"

  /** The shortest message, counted after trimming. */
  const MinMessageLength: nat := 10

  datatype FormCheck = FormCheck(isValid: bool, errors: seq<string>)

  /** `isValidEmail`: the pattern is matched against the address as typed, spaces included. */
  predicate IsValidEmail(email: string) {
    IsSimpleEmail(email)
  }

  lemma MessagesDistinct()
    ensures NameRequired != EmailRequired && NameRequired != InvalidEmail && NameRequired != MessageRequired
    ensures NameRequired != MessageTooShort && EmailRequired != InvalidEmail && EmailRequired != MessageRequired
    ensures EmailRequired != MessageTooShort && InvalidEmail != MessageRequired && InvalidEmail != MessageTooShort
    ensures MessageRequired != MessageTooShort
  {
  }

  /** The field a message reports on, in the order the checks run: name 0, e-mail 1, message 2. */
  function FieldOf(message: string): nat {
    if message == NameRequired then 0
    else if message == EmailRequired || message == InvalidEmail then 1
    else 2
  }

  /** Each error reports on a later field than the one before it. */
  predicate InFieldOrder(errors: seq<string>) {
    forall i, j :: 0 <= i < j < |errors| ==> FieldOf(errors[i]) < FieldOf(errors[j])
  }

  /**
   * The errors pushed, from what the three checks found: a blank name; a blank or a
   * malformed address; a blank message or the length of the trimmed message.
   */
  function Errors(nameBlank: bool, emailBlank: bool, emailValid: bool, messageBlank: bool, messageLength: nat): (errors: seq<string>)
    ensures |errors| <= 3
  {
    (if nameBlank then [NameRequired] else [])
    + (if emailBlank then [EmailRequired] else if !emailValid then [InvalidEmail] else [])
    + (if messageBlank then [MessageRequired] else if messageLength < MinMessageLength then [MessageTooShort] else [])
  }

  /** Each message is pushed exactly when its check fails; a blank address is not also called malformed. */
  lemma ErrorsPerCheck(nameBlank: bool, emailBlank: bool, emailValid: bool, messageBlank: bool, messageLength: nat)
    ensures var errors := Errors(nameBlank, emailBlank, emailValid, messageBlank, messageLength);
      && (errors == [] <==> !nameBlank && !emailBlank && emailValid && !messageBlank && messageLength >= MinMessageLength)
      && (NameRequired in errors <==> nameBlank)
      && (EmailRequired in errors <==> emailBlank)
      && (InvalidEmail in errors <==> !emailBlank && !emailValid)
      && (MessageRequired in errors <==> messageBlank)
      && (MessageTooShort in errors <==> !messageBlank && messageLength < MinMessageLength)
      && |errors| == (if nameBlank then 1 else 0) + (if emailBlank || !emailValid then 1 else 0)
                     + (if messageBlank || messageLength < MinMessageLength then 1 else 0)
      && InFieldOrder(errors)
  {
    MessagesDistinct();
  }

  /** `validateContactForm`: name, then e-mail, then message, at most one error each. */
  function ValidateContactForm(d: ContactFormData): (r: FormCheck)
    ensures r.isValid <==> r.errors == []
    ensures |r.errors| <= 3
  {
    var errors := Errors(Trim(d.name) == [], Trim(d.email) == [], IsValidEmail(d.email),
                         Trim(d.message) == [], |Trim(d.message)|);
    FormCheck(errors == [], errors)
  }

  /** The form is valid exactly when every field passes, and each failing field reports its own message. */
  lemma ContactFormErrors(d: ContactFormData)
    ensures var r := ValidateContactForm(d);
      && (r.isValid <==> Trim(d.name) != [] && Trim(d.email) != [] && IsValidEmail(d.email)
                         && |Trim(d.message)| >= MinMessageLength)
      && (NameRequired in r.errors <==> Trim(d.name) == [])
      && (EmailRequired in r.errors <==> Trim(d.email) == [])
      && (InvalidEmail in r.errors <==> Trim(d.email) != [] && !IsValidEmail(d.email))
      && (MessageRequired in r.errors <==> Trim(d.message) == [])
      && (MessageTooShort in r.errors <==> Trim(d.message) != [] && |Trim(d.message)| < MinMessageLength)
      && |r.errors| == (if Trim(d.name) == [] then 1 else 0)
                       + (if Trim(d.email) == [] || !IsValidEmail(d.email) then 1 else 0)
                       + (if Trim(d.message) == [] || |Trim(d.message)| < MinMessageLength then 1 else 0)
      && InFieldOrder(r.errors)
  {
    ErrorsPerCheck(Trim(d.name) == [], Trim(d.email) == [], IsValidEmail(d.email),
                   Trim(d.message) == [], |Trim(d.message)|);
  }

  /** An address typed with a leading space is not blank, yet fails the pattern. */
  lemma PaddedAddressMalformed(local: string, domain: string)
    requires '@' !in local && '@' !in domain
    ensures Trim(" " + local + "@" + domain) != []
    ensures !IsValidEmail(" " + local + "@" + domain)
  {
    var email := " " + local + "@" + domain;
    assert email == (" " + local) + "@" + domain;
    SimpleEmailParts(" " + local, domain);
    assert (" " + local)[0] == ' ';
    TrimEmptyIffAllSpace(email);
    assert email[|local| + 1] == '@';
  }

  /**
   * The required-check trims but the pattern does not: an otherwise valid address typed
   * with a leading space is reported as invalid rather than accepted.
   */
  lemma PaddedAddressReported(d: ContactFormData, local: string, domain: string)
    requires '@' !in local && '@' !in domain
    requires d.email == " " + local + "@" + domain
    ensures InvalidEmail in ValidateContactForm(d).errors
    ensures EmailRequired !in ValidateContactForm(d).errors
  {
    PaddedAddressMalformed(local, domain);
    ContactFormErrors(d);
  }

  predicate Truthy(s: Option<string>) {
    s.Some? && s.value != []
  }

  /** `Company/Production: ...` followed by a line break, or nothing. */
  function CompanyLine(company: Option<string>): (line: string)
    ensures !Truthy(company) <==> line == []
  {
    if Truthy(company) then "Company/Production: " + company.value + "\n" else ""
  }

  /** `Project Type: ...` followed by a line break, or nothing. */
  function ProjectLine(project: Option<string>): (line: string)
    ensures !Truthy(project) <==> line == []
  {
    if Truthy(project) then "Project Type: " + project.value + "\n" else ""
  }

  const Heading: string := "New Contact Form Submission"
  const Footer: string := "This email was sent from your portfolio contact form."

  /** The lines before the optional ones. */
  function Header(d: ContactFormData): string {
    Heading + "\n\nName: " + d.name + "\nEmail: " + d.email + "\n"
  }

  /** The lines after the optional ones, ending with the footer. */
  function Closing(message: string): (c: string)
    ensures c != [] && c[|c| - 1] == '.'
  {
    "\n\nMessage:\n" + message + "\n\n---\n" + Footer
  }

  /** The text between the template's leading line break and its trailing indentation. */
  function TextBody(d: ContactFormData): (body: string)
    ensures body != [] && body[0] == 'N' && body[|body| - 1] == '.'
  {
    Header(d) + CompanyLine(d.company) + "\n" + ProjectLine(d.project) + Closing(d.message)
  }

  /** `generateEmailText`: the template, trimmed. */
  function GenerateEmailText(d: ContactFormData): (text: string)
    ensures text == TextBody(d)
  {
    TrimPadded("\n", TextBody(d), "\n  ");
    Trim("\n" + TextBody(d) + "\n  ")
  }

  /** A company that is given appears on its own line. */
  lemma CompanyShownWhenGiven(d: ContactFormData)
    requires Truthy(d.company)
    ensures Contains(GenerateEmailText(d), "Company/Production: " + d.company.value + "\n")
  {
    var h, c, p, t := Header(d), CompanyLine(d.company), ProjectLine(d.project), Closing(d.message);
    assert h + c + "\n" + p + t == h + c + ("\n" + p + t);
    ContainsInfix(h, c, "\n" + p + t);
  }

  /** A project type that is given appears on its own line. */
  lemma ProjectShownWhenGiven(d: ContactFormData)
    requires Truthy(d.project)
    ensures Contains(GenerateEmailText(d), "Project Type: " + d.project.value + "\n")
  {
    var h, c, p, t := Header(d), CompanyLine(d.company), ProjectLine(d.project), Closing(d.message);
    ContainsInfix(h + c + "\n", p, t);
  }

  /** An empty company or project is rendered exactly like a missing one. */
  lemma EmptyOptionalsOmitted(d: ContactFormData)
    requires !Truthy(d.company) && !Truthy(d.project)
    ensures GenerateEmailText(d) == GenerateEmailText(d.(company := None, project := None))
  {
  }

  /** The message as placed in `generateEmailHTML`: every line break becomes `<br>`. */
  function HtmlMessage(message: string): (html: string)
    ensures '\n' !in html
    ensures '\n' !in message ==> html == message
  {
    ReplaceChar(message, '\n', "<br>")
  }

  /** Two lines of a message are joined by one `<br>`. */
  lemma HtmlMessageLines(a: string, b: string)
    ensures HtmlMessage(a + "\n" + b) == HtmlMessage(a) + "<br>" + HtmlMessage(b)
  {
    ReplaceCharAppend(a, "\n" + b, '\n', "<br>");
    ReplaceCharAppend("\n", b, '\n', "<br>");
    assert ("\n" + b) == "\n" + b;
    assert a + "\n" + b == a + ("\n" + b);
  }
}
