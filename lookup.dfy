/** get_position_type: the fixed table from HR salary-plan codes to VIVO position
    types (vivopeople.py:121-168). */
module Lookup {
  import opened Records

  /** The seven position types the table can give. */
  const PositionCategories: set<string> :=
    {"postdoc", "courtesy-faculty", "faculty", "clinical-faculty", "housestaff",
     "temp-faculty", "non-academic"}

  /** The codes that carry a position type. */
  const TypedCodes: set<string> :=
    {"CPFI", "CTSY", "FA09", "FA9M", "FA10", "FA12", "FACM", "FAPD", "FASU", "HOUS",
     "OF09", "OF12", "OFSU", "TA09", "TA10", "TA12", "TASU", "TU1E", "TU2E", "TU9E",
     "TUSE", "US2E"}

  /** `position_dict.get(salary_plan, None)`: position_dict code by code; the codes it
      maps to None are listed as such, and any other code is not in it. */
  function PositionType(plan: string): (r: Option<string>)
    ensures r == None || r.value in PositionCategories
    ensures r != None <==> plan in TypedCodes
  {
    match plan
    case "CPFI" => Some("postdoc")
    case "CTSY" => Some("courtesy-faculty")
    case "FA09" => Some("faculty")
    case "FA9M" => Some("clinical-faculty")
    case "FA10" => Some("faculty")
    case "FA12" => Some("faculty")
    case "FACM" => Some("clinical-faculty")
    case "FAPD" => Some("postdoc")
    case "FASU" => Some("faculty")
    case "FELL" => None
    case "FWSP" => None
    case "GA09" => None
    case "GA12" => None
    case "GASU" => None
    case "HOUS" => Some("housestaff")
    case "ISCR" => None
    case "OF09" => Some("temp-faculty")
    case "OF12" => Some("temp-faculty")
    case "OFSU" => Some("temp-faculty")
    case "OPSE" => None
    case "OPSN" => None
    case "STAS" => None
    case "STBW" => None
    case "TA09" => Some("non-academic")
    case "TA10" => Some("non-academic")
    case "TA12" => Some("non-academic")
    case "TASU" => Some("non-academic")
    case "TU1E" => Some("non-academic")
    case "TU2E" => Some("non-academic")
    case "TU9E" => Some("non-academic")
    case "TUSE" => Some("non-academic")
    case "TU1N" => None
    case "TU2N" => None
    case "TU9N" => None
    case "TUSN" => None
    case "US1N" => None
    case "US2N" => None
    case "US9N" => None
    case "USSN" => None
    case "US2E" => Some("non-academic")
    case _ => None
  }

  /** Faculty codes: the nine-, ten- and twelve-month and summer plans. */
  lemma FacultyCodes(plan: string)
    ensures PositionType(plan) == Some("faculty") <==> plan in {"FA09", "FA10", "FA12", "FASU"}
  {
  }

  /** Every one of the seven types is the type of some code. */
  lemma EveryCategoryUsed(c: string)
    requires c in PositionCategories
    ensures exists plan :: PositionType(plan) == Some(c)
  {
    var plan :=
      if c == "postdoc" then "CPFI"
      else if c == "courtesy-faculty" then "CTSY"
      else if c == "faculty" then "FA09"
      else if c == "clinical-faculty" then "FACM"
      else if c == "housestaff" then "HOUS"
      else if c == "temp-faculty" then "OF09"
      else "TA09";
    assert PositionType(plan) == Some(c);
  }
}
