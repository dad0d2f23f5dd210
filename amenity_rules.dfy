/** The check of `Amenity` (part2 amenity.py) and the name guards the two
    facades apply to an amenity payload. */
module AmenityRules {
  import opened Wrappers
  import opened Values
  import opened Errors

  const MaxNameLength: nat := 50

  /** `validate_name`: `if not name or len(name) > 50: raise`; there is no
      stripping, so a name of spaces passes. */
  function CheckAmenityName(v: Value): (r: Outcome<Error>)
    ensures r.Pass? <==> Truthy(v) && Len(v).Some? && Len(v).value <= MaxNameLength
    ensures v.Str? ==> (r.Pass? <==> 1 <= |v.s| <= MaxNameLength)
    ensures r.Fail? ==> r.error in {AmenityNameInvalid, NoLen}
    ensures Truthy(v) && Len(v).None? ==> r == Fail(NoLen)
    ensures !Truthy(v) || (Len(v).Some? && Len(v).value > MaxNameLength) ==> r == Fail(AmenityNameInvalid)
  {
    if !Truthy(v) then Fail(AmenityNameInvalid)
    else match Len(v)
      case None => Fail(NoLen)
      case Some(n) => if n > MaxNameLength then Fail(AmenityNameInvalid) else Pass
  }

  /** A name of blanks is an acceptable amenity name. */
  lemma BlankNameAccepted()
    ensures CheckAmenityName(Str("   ")).Pass?
    ensures CheckAmenityName(Str("")).Fail?
  {
  }

  /** Both facades' `create_amenity`: `if not data.get('name'): raise`. */
  function CreateNameGuard(data: Record): (r: Outcome<Error>)
    ensures r.Pass? <==> "name" in data && Truthy(data["name"])
    ensures r.Fail? ==> r.error == NameRequired
  {
    if !Truthy(Get(data, "name", Null)) then Fail(NameRequired) else Pass
  }

  /** Both facades' `update_amenity`: `if 'name' in data and not
      data['name'].strip(): raise`. */
  function UpdateNameGuard(data: Record): (r: Outcome<Error>)
    ensures r.Pass? <==> "name" !in data || (data["name"].Str? && !IsBlank(data["name"].s))
    ensures "name" in data && !data["name"].Str? ==> r == Fail(NoStrip)
    ensures "name" in data && data["name"].Str? && IsBlank(data["name"].s) ==> r == Fail(AmenityNameBlank)
  {
    if "name" !in data then Pass
    else if !data["name"].Str? then Fail(NoStrip)
    else if IsBlank(data["name"].s) then Fail(AmenityNameBlank)
    else Pass
  }
}
