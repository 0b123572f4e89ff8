/** `rolesToScope`: the scope claim of a JWT, built from an account's
    roles. */
module AccountMapper {
  import opened Common
  import opened Catalog

  /** `Role.name()`. */
  function RoleName(r: Role): string
  {
    match r
    case ADMIN => "ADMIN"
    case FARMER => "FARMER"
    case CONSUMER => "CONSUMER"
  }

  /** The scope token of a role. */
  function Token(r: Role): (t: string)
    ensures |t| > 5 && t[..5] == "ROLE_" && ' ' !in t && t[|t| - 1] > ' '
  {
    "ROLE_" + RoleName(r)
  }

  function Tokens(roles: seq<Role>): (ts: seq<string>)
    ensures |ts| == |roles| && forall i :: 0 <= i < |roles| ==> ts[i] == Token(roles[i])
  {
    if roles == [] then [] else Tokens(roles[..|roles| - 1]) + [Token(roles[|roles| - 1])]
  }

  /** The builder's contents after appending each role's token and a
      space. */
  function Spaced(roles: seq<Role>): string
  {
    if roles == [] then "" else Spaced(roles[..|roles| - 1]) + Token(roles[|roles| - 1]) + " "
  }

  /** Java's `trim`: drops characters up to the space from both ends. */
  function Trim(s: string): string
  {
    TrimEnd(TrimStart(s))
  }

  function TrimStart(s: string): (r: string)
    ensures |r| <= |s| && (r != [] ==> r[0] > ' ')
  {
    if s != [] && s[0] <= ' ' then TrimStart(s[1..]) else s
  }

  function TrimEnd(s: string): (r: string)
    ensures |r| <= |s| && (r != [] ==> r[|r| - 1] > ' ')
  {
    if s != [] && s[|s| - 1] <= ' ' then TrimEnd(s[..|s| - 1]) else s
  }

  /** `rolesToScope`; `roles` lists the role set in its iteration order. */
  method RolesToScope(roles: seq<Role>) returns (scope: string)
    ensures scope == Join(Tokens(roles), " ")
  {
    var scopeBuilder := "";
    for i := 0 to |roles|
      invariant scopeBuilder == Spaced(roles[..i])
    {
      assert roles[..i + 1][..i] == roles[..i];
      scopeBuilder := scopeBuilder + Token(roles[i]) + " ";
    }
    assert roles[..|roles|] == roles;
    scope := Trim(scopeBuilder);
    SpacedTrims(roles);
  }

  /** Trimming the builder gives the tokens joined by single spaces. */
  lemma SpacedTrims(roles: seq<Role>)
    ensures Trim(Spaced(roles)) == Join(Tokens(roles), " ")
  {
    if roles != [] {
      SpacedJoin(roles);
      JoinEndsLast(roles);
      TrimTrailingSpace(Join(Tokens(roles), " "));
    }
  }

  /** Trimming a word followed by one space gives the word. */
  lemma TrimTrailingSpace(j: string)
    requires |j| > 0 && j[0] > ' ' && j[|j| - 1] > ' '
    ensures Trim(j + " ") == j
  {
    assert TrimStart(j + " ") == j + " ";
    assert (j + " ")[..|j|] == j;
    assert TrimEnd(j + " ") == TrimEnd(j);
    assert TrimEnd(j) == j;
  }

  /** The builder holds the joined tokens and one trailing space. */
  lemma {:induction false} SpacedJoin(roles: seq<Role>)
    requires roles != []
    ensures Spaced(roles) == Join(Tokens(roles), " ") + " "
  {
    var front := roles[..|roles| - 1];
    var last := roles[|roles| - 1];
    if front == [] {
      assert Tokens(roles) == [Token(last)];
    } else {
      SpacedJoin(front);
      JoinSnoc(Tokens(front), Token(last), " ");
    }
  }

  /** The joined tokens start with the first token's 'R' and end with the
      last token's final letter. */
  lemma {:induction false} JoinEndsLast(roles: seq<Role>)
    requires roles != []
    ensures var j := Join(Tokens(roles), " ");
      |j| > 0 && j[0] == 'R' && j[|j| - 1] > ' '
  {
    var front := roles[..|roles| - 1];
    var last := roles[|roles| - 1];
    if front == [] {
      assert Tokens(roles) == [Token(last)];
    } else {
      JoinEndsLast(front);
      JoinSnoc(Tokens(front), Token(last), " ");
    }
  }

  /** The scope of no roles is empty; otherwise it neither starts nor ends
      with a space, and holds one space fewer than there are roles, so one
      token per role. */
  lemma ScopeShape(roles: seq<Role>)
    ensures roles == [] ==> Join(Tokens(roles), " ") == ""
    ensures roles != [] ==>
      var scope := Join(Tokens(roles), " ");
      && scope[0] != ' ' && scope[|scope| - 1] != ' '
      && Count(scope, ' ') == |roles| - 1
  {
    if roles != [] {
      JoinEndsLast(roles);
      JoinSeparatorCount(Tokens(roles), ' ');
      assert [' '] == " ";
    }
  }
}
