/** The publish journal's vocabulary: one line per notice still owed to booking,
    written as kind|reason|requestId. */
module Journal {

  datatype Parsed = Malformed | Parsed(kind: string, reason: string, requestId: string)

  function PendingMember(kind: string, reason: string, requestId: string): string {
    kind + "|" + reason + "|" + requestId
  }

  /** Position of the first bar, or |s| when there is none. */
  function FirstBar(s: string): (i: nat)
    ensures i <= |s|
    ensures '|' !in s[..i]
    ensures i < |s| ==> s[i] == '|'
  {
    if |s| == 0 || s[0] == '|' then 0
    else
      var i := FirstBar(s[1..]);
      assert s[..i + 1] == [s[0]] + s[1..][..i];
      i + 1
  }

  /** The three pieces around the first two bars. */
  function Pieces(m: string): Parsed {
    var i := FirstBar(m);
    if i == |m| then Malformed
    else
      var rest := m[i + 1..];
      var j := FirstBar(rest);
      if j == |rest| then Malformed
      else Parsed(m[..i], rest[..j], rest[j + 1..])
  }

  function ParsePendingMember(m: string): Parsed {
    var p := Pieces(m);
    if p.Parsed? && p.requestId == "" then Malformed else p
  }

  lemma {:induction false} FirstBarOfPrefix(a: string, b: string)
    requires '|' !in a
    ensures FirstBar(a + "|" + b) == |a|
  {
    if |a| > 0 {
      assert a[0] in a && (a + "|" + b)[1..] == a[1..] + "|" + b;
      FirstBarOfPrefix(a[1..], b);
    }
  }

  lemma CutAt(s: string, i: nat)
    requires i < |s| && s[i] == '|'
    ensures s == s[..i] + "|" + s[i + 1..]
  {}

  lemma BarsAssociate(a: string, b: string, c: string)
    ensures a + "|" + (b + "|" + c) == a + "|" + b + "|" + c
  {}

  lemma CutsAtBar(a: string, b: string)
    requires '|' !in a
    ensures var m := a + "|" + b;
            FirstBar(m) == |a| && |a| < |m| && m[..|a|] == a && m[|a| + 1..] == b
  {
    FirstBarOfPrefix(a, b);
    hide FirstBar;
  }

  lemma PiecesOfMember(kind: string, reason: string, id: string)
    requires '|' !in kind && '|' !in reason
    ensures Pieces(PendingMember(kind, reason, id)) == Parsed(kind, reason, id)
  {
    BarsAssociate(kind, reason, id);
    CutsAtBar(kind, reason + "|" + id);
    CutsAtBar(reason, id);
    hide FirstBar;
  }

  /** Writing then parsing gives the three pieces back exactly when neither kind nor reason
      holds a bar and the id is not empty; the id itself may hold bars. */
  lemma MemberRoundTrip(kind: string, reason: string, id: string)
    ensures ParsePendingMember(PendingMember(kind, reason, id)) == Parsed(kind, reason, id)
        <==> '|' !in kind && '|' !in reason && id != ""
  {
    if '|' !in kind && '|' !in reason {
      PiecesOfMember(kind, reason, id);
    }
  }

  /** Parsing then writing gives the original line back, so clearing by the parsed pieces
      removes the very line that was read. */
  lemma ParseThenWrite(m: string)
    requires ParsePendingMember(m).Parsed?
    ensures var p := ParsePendingMember(m);
            PendingMember(p.kind, p.reason, p.requestId) == m && p.requestId != ""
  {
    var i := FirstBar(m);
    var rest := m[i + 1..];
    var j := FirstBar(rest);
    CutAt(rest, j);
    CutAt(m, i);
    BarsAssociate(m[..i], rest[..j], rest[j + 1..]);
  }

  /** Parsing inverts writing exactly: a line parses to three pieces if and only if it is what
      writing them gives and they are pieces a line can hold. */
  lemma ParsesExactly(m: string, kind: string, reason: string, id: string)
    ensures ParsePendingMember(m) == Parsed(kind, reason, id)
        <==> m == PendingMember(kind, reason, id) && '|' !in kind && '|' !in reason && id != ""
  {
    MemberRoundTrip(kind, reason, id);
    if ParsePendingMember(m).Parsed? { ParseThenWrite(m); }
  }

  datatype Via = ViaEnter | ViaPromote
  datatype Cause = OnTimeout | OnLeave | OnComplete

  /** What a journal line says. */
  datatype Notice = Admit(via: Via, user: string) | Revoke(cause: Cause, user: string)

  datatype Option<T> = None | Some(value: T)

  const KIND_ADMIT := "A"
  const KIND_REVOKE := "R"

  function ViaText(v: Via): string {
    match v case ViaEnter => "ENTER" case ViaPromote => "PROMOTE"
  }

  function CauseText(c: Cause): string {
    match c case OnTimeout => "SESSION_TIMEOUT" case OnLeave => "LEAVE" case OnComplete => "COMPLETE"
  }

  function Decode(m: string): Option<Notice> {
    var p := Pieces(m);
    if p.Malformed? then None
    else if p.kind == KIND_ADMIT then
      if p.reason == "ENTER" then Some(Admit(ViaEnter, p.requestId))
      else if p.reason == "PROMOTE" then Some(Admit(ViaPromote, p.requestId))
      else None
    else if p.kind == KIND_REVOKE then
      if p.reason == "SESSION_TIMEOUT" then Some(Revoke(OnTimeout, p.requestId))
      else if p.reason == "LEAVE" then Some(Revoke(OnLeave, p.requestId))
      else if p.reason == "COMPLETE" then Some(Revoke(OnComplete, p.requestId))
      else None
    else None
  }

  /** The line for a notice. Reading it back gives the notice, so two notices never share a
      line, whatever characters the ids hold. */
  function Encode(n: Notice): (m: string)
    ensures Decode(m) == Some(n)
  {
    match n
    case Admit(v, u) =>
      PiecesOfMember(KIND_ADMIT, ViaText(v), u);
      PendingMember(KIND_ADMIT, ViaText(v), u)
    case Revoke(c, u) =>
      PiecesOfMember(KIND_REVOKE, CauseText(c), u);
      PendingMember(KIND_REVOKE, CauseText(c), u)
  }

  /** A user id the handlers let through: 1 to 64 of [A-Za-z0-9_-]. */
  predicate ValidId(id: string) {
    && 1 <= |id| <= 64
    && forall c :: c in id ==> 'A' <= c <= 'Z' || 'a' <= c <= 'z' || '0' <= c <= '9' || c == '_' || c == '-'
  }

  /** The sweep parses every line written for a non-empty id into that notice's pieces. */
  lemma EncodeParses(n: Notice)
    ensures ParsePendingMember(Encode(n)) ==
            if n.user == "" then Malformed
            else match n
                 case Admit(v, u) => Parsed(KIND_ADMIT, ViaText(v), u)
                 case Revoke(c, u) => Parsed(KIND_REVOKE, CauseText(c), u)
  {
    match n
    case Admit(v, u) => PiecesOfMember(KIND_ADMIT, ViaText(v), u);
    case Revoke(c, u) => PiecesOfMember(KIND_REVOKE, CauseText(c), u);
  }
}
