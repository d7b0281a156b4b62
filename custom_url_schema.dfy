/** The CustomURL collection's schema: one redirect URL per user, with a
    trimmed company name and a rating threshold bounded to 1..5. */
module CustomUrlSchema {
  import opened Common

  /** The schema default of `redirectFromRating`. */
  const DefaultRedirectFromRating: int := 3

  /** A stored CustomURL document. `companyName` is optional here because the
      set-url route creates documents without it (see Conforms). */
  datatype CustomUrl = CustomUrl(
    user: UserId,
    companyName: Option<string>,
    url: string,
    redirectFromRating: int,
    createdAt: int)

  /** The white space that JavaScript's `String.prototype.trim` removes. */
  predicate IsSpace(c: char)
  {
    || c == ' ' || c == '\t' || c == '\n' || c == '\r' || c == '\U{000B}' || c == '\U{000C}'
    || c == '\U{00A0}' || c == '\U{1680}' || ('\U{2000}' <= c <= '\U{200A}')
    || c == '\U{2028}' || c == '\U{2029}' || c == '\U{202F}' || c == '\U{205F}'
    || c == '\U{3000}' || c == '\U{FEFF}'
  }

  predicate AllSpace(s: string)
  {
    forall i :: 0 <= i < |s| ==> IsSpace(s[i])
  }

  predicate Trimmed(s: string)
  {
    s == [] || (!IsSpace(s[0]) && !IsSpace(s[|s| - 1]))
  }

  /** Drops the leading white space. */
  function TrimStart(s: string): (r: string)
    ensures |r| <= |s| && r == s[|s| - |r|..]
    ensures AllSpace(s[..|s| - |r|])
    ensures r == [] || !IsSpace(r[0])
  {
    if s == [] || !IsSpace(s[0]) then s else TrimStart(s[1..])
  }

  /** Drops the trailing white space. */
  function TrimEnd(s: string): (r: string)
    ensures |r| <= |s| && r == s[..|r|]
    ensures AllSpace(s[|r|..])
    ensures r == [] || !IsSpace(r[|r| - 1])
    ensures s != [] && !IsSpace(s[0]) ==> r != [] && r[0] == s[0]
  {
    if s == [] || !IsSpace(s[|s| - 1]) then s else TrimEnd(s[..|s| - 1])
  }

  /** A suffix `t` of `s` and a prefix `r` of `t` cut `s` into three parts. */
  lemma SplitAround(s: string, t: string, r: string)
    requires |t| <= |s| && t == s[|s| - |t|..]
    requires |r| <= |t| && r == t[..|r|]
    ensures s == s[..|s| - |t|] + r + t[|r|..]
  {
    assert s == s[..|s| - |t|] + t;
    assert t == r + t[|r|..];
  }

  /** The `trim: true` setter of `companyName`: the value with its leading and
      trailing white space removed. */
  function Trim(s: string): (r: string)
    ensures Trimmed(r) && |r| <= |s|
  {
    TrimEnd(TrimStart(s))
  }

  /** Trimming cuts off only white space: the input is leading white space,
      the trimmed value, then trailing white space. */
  lemma TrimCutsOnlySpace(s: string)
    ensures exists lead, trail :: s == lead + Trim(s) + trail && AllSpace(lead) && AllSpace(trail)
  {
    var t := TrimStart(s);
    var r := TrimEnd(t);
    SplitAround(s, t, r);
    var lead, trail := s[..|s| - |t|], t[|r|..];
    assert AllSpace(lead) && AllSpace(trail);
  }

  /** A value without surrounding white space is stored as given. */
  lemma TrimKeepsTrimmed(s: string)
    requires Trimmed(s)
    ensures Trim(s) == s
  {
    assert TrimStart(s) == s;
    assert TrimEnd(s) == s;
  }

  /** Trimming twice is trimming once. */
  lemma TrimIdempotent(s: string)
    ensures Trim(Trim(s)) == Trim(s)
  {
    TrimKeepsTrimmed(Trim(s));
  }

  /** The schema's constraints: `user` and `url` required, `companyName`
      required (after trimming, not empty) and trimmed, `redirectFromRating`
      within 1..5. */
  predicate Conforms(rec: CustomUrl)
  {
    && rec.companyName.Some? && rec.companyName.value != "" && Trimmed(rec.companyName.value)
    && rec.url != ""
    && 1 <= rec.redirectFromRating <= 5
  }

  /** `CustomURL.create({ user, url })`: the defaults fill `redirectFromRating`
      (3, within its bounds) and `createdAt`; no company name is given. */
  function NewCustomUrl(user: UserId, url: string, now: int): (r: CustomUrl)
    ensures r.user == user && r.url == url && r.createdAt == now
    ensures r.redirectFromRating == DefaultRedirectFromRating && 1 <= r.redirectFromRating <= 5
    ensures r.companyName.None?
  {
    CustomUrl(user, None, url, DefaultRedirectFromRating, now)
  }

  /** The record set-url creates misses the schema's required company name. */
  lemma NewCustomUrlLacksCompanyName(user: UserId, url: string, now: int)
    ensures !Conforms(NewCustomUrl(user, url, now))
  {
  }
}
