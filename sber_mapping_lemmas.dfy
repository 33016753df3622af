/** Properties of the claim-to-attribute mapping. */
module SberMappingProperties {
  import opened Wrappers
  import opened PhpValue
  import opened SberMapping

  /** Exactly five attributes read a claim named differently from themselves. */
  lemma RenamedAttributes()
    ensures forall a :: Claim(a) != PropertyName(a) <==> a in {Id, Nickname, Name, Surname, Phone}
  {
  }

  /** An attribute whose claim is missing from the response is null. */
  lemma MissingClaimIsNull(raw: map<string, Value>, a: Attribute)
    requires Claim(a) !in raw
    ensures Get(MapUserToObject(raw).attrs, a) == Null
  {
  }

  /**
   * The attributes carry the table's claims and nothing else: two responses
   * give the same attributes exactly when they agree on every claim the table reads.
   */
  lemma SameAttributesIffSameClaims(raw1: map<string, Value>, raw2: map<string, Value>)
    ensures MapUserToObject(raw1).attrs == MapUserToObject(raw2).attrs
        <==> forall a :: Lookup(raw1, Claim(a)) == Lookup(raw2, Claim(a))
  {
    var u1, u2 := MapUserToObject(raw1).attrs, MapUserToObject(raw2).attrs;
    if forall a :: Lookup(raw1, Claim(a)) == Lookup(raw2, Claim(a)) {
      AttributesDeterminedByGet(u1, u2);
    }
  }

  /** Two attribute records are equal when every entry of the table reads the same in both. */
  lemma AttributesDeterminedByGet(x: Attributes, y: Attributes)
    requires forall a :: Get(x, a) == Get(y, a)
    ensures x == y
  {
    assert x.id == y.id by { assert Get(x, Id) == Get(y, Id); }
    assert x.nickname == y.nickname by { assert Get(x, Nickname) == Get(y, Nickname); }
    assert x.name == y.name by { assert Get(x, Name) == Get(y, Name); }
    assert x.surname == y.surname by { assert Get(x, Surname) == Get(y, Surname); }
    assert x.middleName == y.middleName by { assert Get(x, MiddleName) == Get(y, MiddleName); }
    assert x.email == y.email by { assert Get(x, Email) == Get(y, Email); }
    assert x.phone == y.phone by { assert Get(x, Phone) == Get(y, Phone); }
    assert x.birthdate == y.birthdate by { assert Get(x, Birthdate) == Get(y, Birthdate); }
    assert x.passport == y.passport by { assert Get(x, Passport) == Get(y, Passport); }
    assert x.inn == y.inn by { assert Get(x, Inn) == Get(y, Inn); }
    assert x.snils == y.snils by { assert Get(x, Snils) == Get(y, Snils); }
    assert x.drivingLicense == y.drivingLicense by { assert Get(x, DrivingLicense) == Get(y, DrivingLicense); }
    assert x.internationalPassport == y.internationalPassport by { assert Get(x, InternationalPassport) == Get(y, InternationalPassport); }
    assert x.priorityDoc == y.priorityDoc by { assert Get(x, PriorityDoc) == Get(y, PriorityDoc); }
    assert x.citizenship == y.citizenship by { assert Get(x, Citizenship) == Get(y, Citizenship); }
    assert x.placeOfBirth == y.placeOfBirth by { assert Get(x, PlaceOfBirth) == Get(y, PlaceOfBirth); }
    assert x.address == y.address by { assert Get(x, Address) == Get(y, Address); }
    assert x.jobInfo == y.jobInfo by { assert Get(x, JobInfo) == Get(y, JobInfo); }
    assert x.education == y.education by { assert Get(x, Education) == Get(y, Education); }
    assert x.maritalStatus == y.maritalStatus by { assert Get(x, MaritalStatus) == Get(y, MaritalStatus); }
  }

  /** A response with only sub, given_name, family_name and email. */
  lemma MapSampleResponse()
    ensures var u := MapUserToObject(map[
        "sub" := Str("123"), "given_name" := Str("Ivan"),
        "family_name" := Str("Petrov"), "email" := Str("ivan@example.com")]);
      && u.attrs.id == Str("123") && u.attrs.name == Str("Ivan")
      && u.attrs.surname == Str("Petrov") && u.attrs.email == Str("ivan@example.com")
      && u.attrs.nickname == Null && u.attrs.phone == Null && u.attrs.passport == Null
  {
  }
}
