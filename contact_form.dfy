/** The public contact form (routes/contact.js): the required fields, the email
    pattern, and the trimming and defaults applied before the message is stored. */
module ContactForm {
  import opened Wrappers
  import opened Js
  import opened Text
  import opened Http
  import AdminContacts

  /** The request body of `POST /contact`. */
  datatype ContactBody = ContactBody(name: Value, email: Value, phone: Value, company: Value, subject: Value,
                                     projectType: Value, budgetRange: Value, message: Value)

  /** The row inserted into `contact_messages`: the ten parameters, then the two
      literal columns. */
  datatype StoredMessage = StoredMessage(name: string, email: string, phone: Value, company: Value,
                                         subject: string, projectType: Value, budgetRange: Value,
                                         message: string, ipAddress: Value, userAgent: Value,
                                         status: string, priority: string)

  const MissingFields := Failure(400, "Champs requis manquants (name, email, subject, message)")
  const InvalidEmail := Failure(400, "Email invalide")

  // ===========================================================================
  // The email pattern /^[^\s@]+@[^\s@]+\.[^\s@]+$/

  /** A run of `[^\s@]`: no whitespace and no '@'. */
  predicate Plain(s: string)
  {
    forall k :: 0 <= k < |s| ==> !IsSpace(s[k]) && s[k] != '@'
  }

  /** The pattern, read as its four parts: a non-empty plain run, '@', a non-empty
      plain run, '.', a non-empty plain run, anchored at both ends. */
  predicate EmailPattern(s: string)
  {
    exists i, j :: 0 < i && i + 1 < j < |s| - 1 && s[i] == '@' && s[j] == '.'
      && Plain(s[..i]) && Plain(s[i + 1..j]) && Plain(s[j + 1..])
  }

  /** `s` holds '@' at `i` and nowhere else. */
  predicate OnlyAt(s: string, i: int)
  {
    0 <= i < |s| && s[i] == '@' && forall k :: 0 <= k < |s| && k != i ==> s[k] != '@'
  }

  /** What the pattern accepts, said plainly: no whitespace, exactly one '@', not in
      first place, and a '.' in the domain that is neither its first nor its last
      character. */
  predicate EmailShape(s: string)
  {
    && NoSpace(s)
    && exists i :: 0 < i < |s| && OnlyAt(s, i) && exists j :: i + 1 < j < |s| - 1 && s[j] == '.'
  }

  /** A slice is a plain run exactly when each of its characters, read in place, is
      neither whitespace nor '@'. */
  lemma PlainSlice(s: string, lo: int, hi: int)
    requires 0 <= lo <= hi <= |s|
    ensures Plain(s[lo..hi]) <==> forall k :: lo <= k < hi ==> !IsSpace(s[k]) && s[k] != '@'
  {
    var d := s[lo..hi];
    assert forall k :: 0 <= k < |d| ==> d[k] == s[lo + k];
    if forall k :: lo <= k < hi ==> !IsSpace(s[k]) && s[k] != '@' {
      forall k | 0 <= k < |d| ensures !IsSpace(d[k]) && d[k] != '@' {
        assert d[k] == s[lo + k];
      }
    }
    if Plain(d) {
      forall k | lo <= k < hi ensures !IsSpace(s[k]) && s[k] != '@' {
        assert s[k] == d[k - lo];
      }
    }
  }

  /** What the pattern accepts has that shape. */
  lemma PatternHasShape(s: string)
    requires EmailPattern(s)
    ensures EmailShape(s)
  {
    var i, j :| 0 < i && i + 1 < j < |s| - 1 && s[i] == '@' && s[j] == '.'
      && Plain(s[..i]) && Plain(s[i + 1..j]) && Plain(s[j + 1..]);
    PlainSlice(s, 0, i);
    PlainSlice(s, i + 1, j);
    PlainSlice(s, j + 1, |s|);
    assert s[..i] == s[0..i] && s[j + 1..] == s[j + 1..|s|];
    forall k | 0 <= k < |s| ensures !IsSpace(s[k]) && (k != i ==> s[k] != '@') {
      if k == j {
        assert s[k] == '.';
      }
    }
    assert NoSpace(s);
    assert OnlyAt(s, i);
  }

  /** A text of that shape is accepted by the pattern. */
  lemma ShapeMatchesPattern(s: string)
    requires EmailShape(s)
    ensures EmailPattern(s)
  {
    var i :| 0 < i < |s| && OnlyAt(s, i) && exists j :: i + 1 < j < |s| - 1 && s[j] == '.';
    var j :| i + 1 < j < |s| - 1 && s[j] == '.';
    PlainSlice(s, 0, i);
    PlainSlice(s, i + 1, j);
    PlainSlice(s, j + 1, |s|);
    assert s[..i] == s[0..i] && s[j + 1..] == s[j + 1..|s|];
  }

  /** The pattern accepts exactly the texts of that shape. */
  lemma EmailPatternIff(s: string)
    ensures EmailPattern(s) <==> EmailShape(s)
  {
    if EmailPattern(s) {
      PatternHasShape(s);
    }
    if EmailShape(s) {
      ShapeMatchesPattern(s);
    }
  }

  /** No value but a string prints with an '@'. */
  lemma PrintedWithoutAt(v: Value)
    requires !v.Str?
    ensures forall k :: 0 <= k < |ToText(v)| ==> ToText(v)[k] != '@'
  {
    if v.Num? && v.n < 0 {
      var d := NatToString(-v.n);
      assert ToText(v) == "-" + d;
      forall k | 0 <= k < |ToText(v)| ensures ToText(v)[k] != '@' {
        if k > 0 {
          assert ToText(v)[k] == d[k - 1];
        }
      }
    }
  }

  /** `emailRegex.test(email)` converts the value to a string first; only a string
      can match, since no other value prints with an '@'. */
  lemma AcceptedEmailIsText(v: Value)
    requires EmailPattern(ToText(v))
    ensures v.Str?
  {
    var s := ToText(v);
    var i, j :| 0 < i && i + 1 < j < |s| - 1 && s[i] == '@' && s[j] == '.'
      && Plain(s[..i]) && Plain(s[i + 1..j]) && Plain(s[j + 1..]);
    if !v.Str? {
      PrintedWithoutAt(v);
    }
  }

  // ===========================================================================
  // Normalisation

  /** `v.trim()`: a TypeError, answered with the `catch`'s 500, when `v` is not a
      string. */
  function TrimmedText(v: Value): Result<string, Failure>
  {
    if v.Str? then Ok(Trim(v.s)) else Err(ServerError)
  }

  /** `v?.trim() || null`: `null` when the value is absent or trims to nothing, the
      trimmed text otherwise, and a TypeError for a value that is neither absent nor
      a string. */
  function TrimmedOrNull(v: Value): Result<Value, Failure>
  {
    if v.Undefined? || v.Null? then Ok(Null)
    else if v.Str? then Ok(Or(Str(Trim(v.s)), Null))
    else Err(ServerError)
  }

  /** `v || null` */
  function OrNull(v: Value): Value
  {
    Or(v, Null)
  }

  /** The guards and then the parameter array of the INSERT, in its order; `ip` and
      `userAgent` are `req.ip` and the `user-agent` header. */
  function Normalise(body: ContactBody, ip: Value, userAgent: Value): Result<StoredMessage, Failure>
  {
    if !Truthy(body.name) || !Truthy(body.email) || !Truthy(body.message) || !Truthy(body.subject) then
      Err(MissingFields)
    else if !EmailPattern(ToText(body.email)) then Err(InvalidEmail)
    else
      match (TrimmedText(body.name), TrimmedText(body.email), TrimmedOrNull(body.phone),
             TrimmedOrNull(body.company), TrimmedText(body.subject), TrimmedText(body.message))
      case (Ok(name), Ok(email), Ok(phone), Ok(company), Ok(subject), Ok(message)) =>
        Ok(StoredMessage(name, ToLower(email), phone, company, subject, OrNull(body.projectType),
                         OrNull(body.budgetRange), message, ip, userAgent, "new", "normal"))
      case _ => Err(ServerError)
  }

  /** The values of the stored row, in column order. */
  function RowValues(m: StoredMessage): seq<Value>
  {
    [Str(m.name), Str(m.email), m.phone, m.company, Str(m.subject), m.projectType, m.budgetRange,
     Str(m.message), m.ipAddress, m.userAgent, Str(m.status), Str(m.priority)]
  }

  /** `POST /contact`; `insertFails` says whether the INSERT throws. */
  function SubmitContact(body: ContactBody, ip: Value, userAgent: Value, insertFails: bool): Outcome
  {
    match Normalise(body, ip, userAgent)
    case Err(f) => Reject(f)
    case Ok(m) =>
      if insertFails then Reject(ServerError)
      else Outcome([Insert(AdminContacts.MessagesTable, RowValues(m))], Succeeded)
  }

  // ===========================================================================
  // Properties

  /** A missing name, email, subject or message is refused with 400 before anything
      is stored; so is an email the pattern refuses. */
  lemma GuardsBeforeInsert(body: ContactBody, ip: Value, userAgent: Value, insertFails: bool)
    ensures (!Truthy(body.name) || !Truthy(body.email) || !Truthy(body.message) || !Truthy(body.subject)) ==>
              SubmitContact(body, ip, userAgent, insertFails) == Outcome([], Failed(MissingFields))
    ensures (Truthy(body.name) && Truthy(body.email) && Truthy(body.message) && Truthy(body.subject)
             && !EmailShape(ToText(body.email))) ==>
              SubmitContact(body, ip, userAgent, insertFails) == Outcome([], Failed(InvalidEmail))
  {
    EmailPatternIff(ToText(body.email));
  }

  /** An accepted email has no whitespace, so the trim keeps it whole and it is stored
      lowercased, character by character. */
  lemma StoredEmailLowercased(body: ContactBody, ip: Value, userAgent: Value)
    requires Normalise(body, ip, userAgent).Ok?
    ensures body.email.Str?
    ensures Normalise(body, ip, userAgent).value.email == ToLower(body.email.s)
  {
    AcceptedEmailIsText(body.email);
    EmailPatternIff(body.email.s);
    TrimNoSpace(body.email.s);
  }

  /** A stored message has its name, subject and message trimmed, its phone and company
      trimmed or null, its project type and budget range or null, and starts as a new
      message of normal priority. */
  lemma StoredFields(body: ContactBody, ip: Value, userAgent: Value)
    requires Normalise(body, ip, userAgent).Ok?
    ensures var m := Normalise(body, ip, userAgent).value;
      && body.name.Str? && m.name == Trim(body.name.s)
      && body.subject.Str? && m.subject == Trim(body.subject.s)
      && body.message.Str? && m.message == Trim(body.message.s)
      && TrimmedOrNull(body.phone) == Ok(m.phone)
      && TrimmedOrNull(body.company) == Ok(m.company)
      && m.projectType == (if Truthy(body.projectType) then body.projectType else Null)
      && m.budgetRange == (if Truthy(body.budgetRange) then body.budgetRange else Null)
      && m.status == "new" && m.priority == "normal"
  {
  }

  /** An optional text is stored as null exactly when it is absent or blank, and
      trimmed otherwise; a value that is neither absent nor a string fails with 500. */
  lemma OptionalTextRule(v: Value)
    ensures TrimmedOrNull(v) == Ok(Null) <==> (v.Undefined? || v.Null? || (v.Str? && Trim(v.s) == ""))
    ensures v.Str? && Trim(v.s) != "" ==> TrimmedOrNull(v) == Ok(Str(Trim(v.s)))
    ensures TrimmedOrNull(v).Err? <==> !(v.Undefined? || v.Null? || v.Str?)
  {
  }

  /** A required field that is truthy but not a string makes `trim()` throw, answered
      with 500 and nothing stored. */
  lemma NonTextFieldFails(body: ContactBody, ip: Value, userAgent: Value)
    requires Truthy(body.name) && Truthy(body.email) && Truthy(body.message) && Truthy(body.subject)
    requires EmailPattern(ToText(body.email))
    requires !body.name.Str? || !body.subject.Str? || !body.message.Str?
    ensures Normalise(body, ip, userAgent) == Err(ServerError)
  {
  }

  /** A message that passes the guards is stored once, whole, and answered with
      success, unless the INSERT fails. */
  lemma SubmitStores(body: ContactBody, ip: Value, userAgent: Value, insertFails: bool)
    requires Normalise(body, ip, userAgent).Ok?
    ensures var o := SubmitContact(body, ip, userAgent, insertFails);
      && (!insertFails ==> o.reply == Succeeded)
      && (!insertFails ==> o.writes == [Insert(AdminContacts.MessagesTable, RowValues(Normalise(body, ip, userAgent).value))])
      && (insertFails ==> o == Outcome([], Failed(ServerError)))
  {
  }
}
