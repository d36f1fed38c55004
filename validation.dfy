/** The prefix validator of examples/validation.rs: a path from a user to
    its e-mail address, and a validator that accepts a value when the
    string the path reaches starts with a pattern. */
module Validation {
  import opened Paths

  datatype Data = Data(email: string)
  datatype User = User(data: Data)

  /** The values the validator's path meets. Rust's types keep each
      attribute to its own input type; here an attribute given any other
      entity returns it unchanged, which no well-typed path ever does. */
  datatype Entity = UserEntity(user: User) | DataEntity(data: Data) | Text(s: string)

  /** `DataAttribute`: a user's `data`; it gives back the record the user
      was built from. */
  function DataAttribute(): (a: Attr<Entity>)
    ensures a.name == "data"
    ensures forall d :: a.get(UserEntity(User(d))) == DataEntity(d)
  {
    Attr("data", (e: Entity) => if e.UserEntity? then DataEntity(e.user.data) else e)
  }

  /** `EmailAttribute`: a data record's `email`; it gives back the address
      the record was built from. */
  function EmailAttribute(): (a: Attr<Entity>)
    ensures a.name == "email"
    ensures forall e :: a.get(DataEntity(Data(e))) == Text(e)
  {
    Attr("email", (e: Entity) => if e.DataEntity? then Text(e.data.email) else e)
  }

  /** `str::starts_with`: the first `|prefix|` characters of `s` are `prefix`. */
  predicate StartsWith(s: string, prefix: string)
  {
    |prefix| <= |s| && s[..|prefix|] == prefix
  }

  /** `s` starts with `prefix` exactly when `s` is `prefix` followed by
      something. */
  lemma StartsWithIffConcat(s: string, prefix: string)
    ensures StartsWith(s, prefix) <==> exists rest :: s == prefix + rest
  {
    if StartsWith(s, prefix) {
      assert s == prefix + s[|prefix|..];
    }
    if exists rest :: s == prefix + rest {
      var rest :| s == prefix + rest;
      assert s[..|prefix|] == prefix;
    }
  }

  datatype PrefixValidator = PrefixValidator(pattern: string, path: Path<Entity>)
  {
    /** `PrefixValidator::validate`: the path's string starts with the
        pattern, that is, it is the pattern followed by something. */
    function Validate(t: Entity): (ok: bool)
      ensures var o := Traverse(path, t);
        ok <==> o.Val? && o.v.Text? && exists rest :: o.v.s == pattern + rest
    {
      var o: Out<Entity> := Traverse(path, t);
      if o.Val? && o.v.Text? then
        StartsWithIffConcat(o.v.s, pattern);
        StartsWith(o.v.s, pattern)
      else
        false
    }
  }

  /** A validator whose path reaches the string `s` accepts exactly when
      `s` is the pattern followed by something. */
  lemma ValidateIsPrefix(pv: PrefixValidator, t: Entity, s: string)
    requires Traverse(pv.path, t) == Val(Text(s))
    ensures pv.Validate(t) <==> exists rest :: s == pv.pattern + rest
  {
    StartsWithIffConcat(s, pv.pattern);
  }

  /** `retrieve(EmailAttribute).from(DataAttribute)`. */
  function EmailPath(): Path<Entity>
  {
    Retrieve(EmailAttribute()).From(DataAttribute())
  }

  /** The e-mail path takes a user to its e-mail address. */
  lemma EmailPathReachesEmail(u: User)
    ensures Traverse(EmailPath(), UserEntity(u)) == Val(Text(u.data.email))
  {
  }

  /** The free function `validate`: does the user's e-mail start with "flo"? */
  function ValidateUser(u: User): (ok: bool)
    ensures ok <==> StartsWith(u.data.email, "flo")
  {
    PrefixValidator("flo", EmailPath()).Validate(UserEntity(u))
  }

  /** The user of `main` passes validation. */
  lemma MainUserValid()
    ensures ValidateUser(User(Data("flo@andersground.net")))
  {
    assert "flo@andersground.net"[..3] == "flo";
  }
}
