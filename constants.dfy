/** Lookup tables, the user directory and the two form validators of
    src/utils/constants.ts. The validators are regular-expression tests; each is
    written here as the regular expression's own structure (which splits of the
    string it accepts) and then characterised character by character. */
module Constants {
  import opened Types

  // ---- Label tables (total over their enumerations by construction) ----

  function RoleLabel(r: UserRole): string {
    match r
    case Coordinator => "Operations Coordinator"
    case Doctor => "Doctor"
    case Nurse => "Nurse Assistant"
  }

  function ServiceTypeLabel(t: ServiceType): string {
    match t
    case BasicTransport => "Basic Transport"
    case MedicalizedTransport => "Medicalized Transport"
    case HomeConsultation => "Home Medical Consultation"
  }

  function StatusLabel(s: ServiceStatus): string {
    match s
    case Requested => "Requested"
    case Assigned => "Assigned"
    case InProgress => "In Progress"
    case Completed => "Completed"
    case Cancelled => "Cancelled"
  }

  function StatusColor(s: ServiceStatus): string {
    match s
    case Requested => "#f59e0b"
    case Assigned => "#3b82f6"
    case InProgress => "#8b5cf6"
    case Completed => "#10b981"
    case Cancelled => "#ef4444"
  }

  /** No two members of an enumeration share a label or a colour. */
  lemma LabelTablesInjective()
    ensures forall a: UserRole, b: UserRole :: RoleLabel(a) == RoleLabel(b) ==> a == b
    ensures forall a: ServiceType, b: ServiceType :: ServiceTypeLabel(a) == ServiceTypeLabel(b) ==> a == b
    ensures forall a: ServiceStatus, b: ServiceStatus :: StatusLabel(a) == StatusLabel(b) ==> a == b
    ensures forall a: ServiceStatus, b: ServiceStatus :: StatusColor(a) == StatusColor(b) ==> a == b
  {
  }

  // ---- The user directory ----

  const MockUsers: seq<User> := [
    User("1", "Ana Coordinator", "ana@medical.com", Coordinator, true),
    User("2", "Dr. Carlos Garc\U{00ED}a", "carlos@medical.com", Doctor, true),
    User("3", "Mar\U{00ED}a Nurse", "maria@medical.com", Nurse, true)
  ]

  /** Three active users with ids "1", "2", "3", distinct e-mail addresses and
      one user per role. */
  lemma MockUsersDirectory()
    ensures |MockUsers| == 3
    ensures MockUsers[0].id == "1" && MockUsers[1].id == "2" && MockUsers[2].id == "3"
    ensures forall i, j :: 0 <= i < j < |MockUsers| ==> MockUsers[i].id != MockUsers[j].id
    ensures forall i, j :: 0 <= i < j < |MockUsers| ==> MockUsers[i].email != MockUsers[j].email
    ensures MockUsers[0].role == Coordinator && MockUsers[1].role == Doctor && MockUsers[2].role == Nurse
    ensures forall i :: 0 <= i < |MockUsers| ==> MockUsers[i].isActive
  {
  }

  // ---- Character classes of JavaScript regular expressions ----

  /** `\s`: the WhiteSpace and LineTerminator code points of ECMAScript. */
  predicate IsWhitespace(c: char) {
    var n := c as int;
    n == 0x09 || n == 0x0A || n == 0x0B || n == 0x0C || n == 0x0D || n == 0x20
    || n == 0xA0 || n == 0x1680 || (0x2000 <= n <= 0x200A)
    || n == 0x2028 || n == 0x2029 || n == 0x202F || n == 0x205F || n == 0x3000 || n == 0xFEFF
  }

  /** `\d`: the ASCII digits. */
  predicate IsDigit(c: char) {
    '0' <= c <= '9'
  }

  /** `[^\s@]`. */
  predicate EmailChar(c: char) {
    !IsWhitespace(c) && c != '@'
  }

  predicate AllEmailChars(s: string) {
    forall k :: 0 <= k < |s| ==> EmailChar(s[k])
  }

  /** `[\d\s-()]`: without the unicode flag a hyphen after a class escape is a
      literal, so the class is digits, whitespace, '-', '(' and ')'. */
  predicate PhoneChar(c: char) {
    IsDigit(c) || IsWhitespace(c) || c == '-' || c == '(' || c == ')'
  }

  predicate AllPhoneChars(s: string) {
    forall k :: 0 <= k < |s| ==> PhoneChar(s[k])
  }

  /** `String.prototype.length`: UTF-16 code units, two for a code point above U+FFFF. */
  function Utf16Length(s: string): (n: nat)
    ensures n >= |s|
    ensures (forall k :: 0 <= k < |s| ==> (s[k] as int) < 0x10000) ==> n == |s|
  {
    if s == [] then 0 else (if (s[0] as int) < 0x10000 then 1 else 2) + Utf16Length(s[1..])
  }

  // ---- validateEmail: /^[^\s@]+@[^\s@]+\.[^\s@]+$/ ----

  /** The regular expression's matches: the string splits as
      local "@" host "." tail with each part a non-empty run of `[^\s@]`. */
  predicate ValidateEmail(email: string): (ok: bool)
    ensures ok ==> 5 <= |email| && '@' in email && '.' in email
  {
    exists a, b :: 0 < a && a + 1 < b && b + 1 < |email|
      && email[a] == '@' && email[b] == '.'
      && AllEmailChars(email[..a]) && AllEmailChars(email[a + 1..b]) && AllEmailChars(email[b + 1..])
  }

  /** The conditions the regular expression amounts to, stated on characters. */
  predicate EmailShape(email: string) {
    (forall k :: 0 <= k < |email| ==> !IsWhitespace(email[k]))
    && (exists a :: 0 < a < |email| && email[a] == '@' && OnlyAt(email, a) && HasInnerDot(email, a))
  }

  /** No '@' in `email` other than the one at index `a`. */
  predicate OnlyAt(email: string, a: nat) {
    forall k :: 0 <= k < |email| && k != a ==> email[k] != '@'
  }

  /** The text after index `a` holds a '.' with a character on each side. */
  predicate HasInnerDot(email: string, a: nat) {
    exists b :: a + 1 < b < |email| - 1 && email[b] == '.'
  }

  lemma EmailRegexShape(email: string, a: nat, b: nat)
    requires 0 < a && a + 1 < b && b + 1 < |email| && email[a] == '@' && email[b] == '.'
    requires AllEmailChars(email[..a]) && AllEmailChars(email[a + 1..b]) && AllEmailChars(email[b + 1..])
    ensures EmailShape(email)
  {
    forall k | 0 <= k < |email| && k != a
      ensures !IsWhitespace(email[k]) && email[k] != '@'
    {
      if k < a {
        assert email[..a][k] == email[k];
      } else if k < b {
        assert email[a + 1..b][k - a - 1] == email[k];
      } else if k > b {
        assert email[b + 1..][k - b - 1] == email[k];
      }
    }
    assert HasInnerDot(email, a);
  }

  lemma EmailShapeRegex(email: string, a: nat)
    requires forall k :: 0 <= k < |email| ==> !IsWhitespace(email[k])
    requires 0 < a < |email| && email[a] == '@' && OnlyAt(email, a) && HasInnerDot(email, a)
    ensures ValidateEmail(email)
  {
    var b :| a + 1 < b < |email| - 1 && email[b] == '.';
    assert AllEmailChars(email[..a]);
    assert AllEmailChars(email[a + 1..b]);
    assert AllEmailChars(email[b + 1..]);
  }

  /** validateEmail holds exactly when the address has no whitespace, exactly one
      '@' with a non-empty local part before it, and a '.' in the domain with
      non-empty text on both sides. */
  lemma ValidateEmailCharacterization(email: string)
    ensures ValidateEmail(email) <==> EmailShape(email)
  {
    if ValidateEmail(email) {
      var a, b :| 0 < a && a + 1 < b && b + 1 < |email|
        && email[a] == '@' && email[b] == '.'
        && AllEmailChars(email[..a]) && AllEmailChars(email[a + 1..b]) && AllEmailChars(email[b + 1..]);
      EmailRegexShape(email, a, b);
    }
    if EmailShape(email) {
      var a :| 0 < a < |email| && email[a] == '@' && OnlyAt(email, a) && HasInnerDot(email, a);
      EmailShapeRegex(email, a);
    }
  }

  /** Whitespace anywhere, or a second '@', makes an address invalid. */
  lemma ValidateEmailRejects(email: string, i: nat, j: nat)
    requires i < |email| && j < |email|
    requires IsWhitespace(email[i]) || (i < j && email[i] == '@' && email[j] == '@')
    ensures !ValidateEmail(email)
  {
    ValidateEmailCharacterization(email);
  }

  // ---- validatePhone: /^[+]?[\d\s-()]+$/ and length >= 8 ----

  /** The regular expression's matches: an optional "+" followed by a non-empty
      run of `[\d\s-()]`. */
  predicate PhoneRegex(phone: string): (ok: bool)
    ensures ok <==> |PhoneBody(phone)| >= 1 && AllPhoneChars(PhoneBody(phone))
  {
    (|phone| >= 1 && AllPhoneChars(phone))
    || (|phone| >= 2 && phone[0] == '+' && AllPhoneChars(phone[1..]))
  }

  /** validatePhone: the regular expression matches and the UTF-16 length is at
      least 8. Matching strings lie in the Basic Multilingual Plane, so that is
      at least 8 characters. */
  predicate ValidatePhone(phone: string): (ok: bool)
    ensures ok <==> PhoneRegex(phone) && |phone| >= 8
  {
    PhoneRegex(phone) && (PhoneRegexInBmp(phone); Utf16Length(phone) >= 8)
  }

  /** The text after an optional leading '+'. */
  function PhoneBody(phone: string): (body: string)
    ensures |body| == if |phone| > 0 && phone[0] == '+' then |phone| - 1 else |phone|
  {
    if |phone| > 0 && phone[0] == '+' then phone[1..] else phone
  }

  /** Every character the regular expression accepts is below U+10000, so a
      match has as many UTF-16 code units as characters. */
  lemma PhoneRegexInBmp(phone: string)
    requires PhoneRegex(phone)
    ensures Utf16Length(phone) == |phone|
  {
    forall k | 0 <= k < |phone| ensures (phone[k] as int) < 0x10000 {
      if phone[0] == '+' {
        if k > 0 {
          assert PhoneBody(phone)[k - 1] == phone[k];
        }
      } else {
        assert PhoneBody(phone)[k] == phone[k];
      }
    }
  }

  /** validatePhone holds exactly when the string is at least 8 characters long and
      what follows an optional leading '+' is one or more digits, whitespace,
      '-', '(' or ')'. */
  lemma ValidatePhoneCharacterization(phone: string)
    ensures ValidatePhone(phone) <==> |phone| >= 8 && |PhoneBody(phone)| >= 1 && AllPhoneChars(PhoneBody(phone))
  {
  }

  /** A '+' is accepted only as the first character. */
  lemma ValidatePhonePlusOnlyFirst(phone: string, i: nat)
    requires ValidatePhone(phone) && 0 < i < |phone|
    ensures phone[i] != '+'
  {
    if phone[0] == '+' {
      assert phone[1..][i - 1] == phone[i];
    }
  }
}
