/** From a zip code to the jurisdictions whose bills are listed: the zip code
    names an area, the area's membership edges name people, and the people name
    their jurisdiction areas (`app/api/bills.py`, lines 59-86). */
module Resolve {
  import opened Results
  import opened Records

  /** The fixed prefix of a zip-code area identifier. */
  const ZipAreaPrefix: string := "ocd-division/country:us/zipcode:"

  /** The area identifier of a zip code: the prefix followed by the code verbatim. */
  function ZipAreaId(zip: string): (r: string)
    ensures |r| == |ZipAreaPrefix| + |zip|
    ensures r[..|ZipAreaPrefix|] == ZipAreaPrefix
    ensures r[|ZipAreaPrefix|..] == zip
  {
    ZipAreaPrefix + zip
  }

  /** Distinct zip codes give distinct area identifiers: the code can be read back. */
  lemma ZipAreaIdInjective(a: string, b: string)
    ensures ZipAreaId(a) == ZipAreaId(b) <==> a == b
  {
    if ZipAreaId(a) == ZipAreaId(b) {
      assert a == ZipAreaId(a)[|ZipAreaPrefix|..];
    }
  }

  /** `SELECT DISTINCT person_id FROM person_areas WHERE area_id = areaId`. */
  function PersonIdsIn(rows: seq<PersonArea>, areaId: string): (r: set<string>)
    ensures forall p :: p in r <==> exists i :: 0 <= i < |rows| && rows[i].areaId == areaId && rows[i].personId == p
    decreases |rows|
  {
    if |rows| == 0 then {}
    else
      var rest := PersonIdsIn(rows[1..], areaId);
      assert forall i :: 1 <= i < |rows| ==> rows[i] == rows[1..][i - 1];
      if rows[0].areaId == areaId then {rows[0].personId} + rest else rest
  }

  /** `SELECT DISTINCT jurisdiction_area_id FROM people WHERE id IN personIds`,
      less the NULLs, which no bill's area identifier can equal. */
  function JurisdictionIdsOf(people: seq<Person>, personIds: set<string>): (r: set<string>)
    ensures forall j :: j in r <==>
      exists i :: 0 <= i < |people| && people[i].id in personIds && people[i].jurisdictionAreaId == Some(j)
    decreases |people|
  {
    if |people| == 0 then {}
    else
      var rest := JurisdictionIdsOf(people[1..], personIds);
      assert forall i :: 1 <= i < |people| ==> people[i] == people[1..][i - 1];
      var first := people[0];
      if first.id in personIds && first.jurisdictionAreaId.Some? then {first.jurisdictionAreaId.value} + rest
      else rest
  }

  /** Some person linked to the zip code's area belongs to jurisdiction area `j`. */
  ghost predicate RepresentsZipFrom(db: Database, zip: string, j: string)
  {
    exists person, link :: person in db.people && link in db.personAreas
      && link.areaId == ZipAreaId(zip) && link.personId == person.id
      && person.jurisdictionAreaId == Some(j)
  }

  /** The jurisdiction areas of the representatives of a zip code. */
  function JurisdictionsForZip(db: Database, zip: string): (r: set<string>)
    ensures forall j :: j in r <==> RepresentsZipFrom(db, zip, j)
  {
    var personIds := PersonIdsIn(db.personAreas, ZipAreaId(zip));
    var r := JurisdictionIdsOf(db.people, personIds);
    assert forall j :: j in r ==> RepresentsZipFrom(db, zip, j) by {
      forall j | j in r
        ensures RepresentsZipFrom(db, zip, j)
      {
        var i :| 0 <= i < |db.people| && db.people[i].id in personIds && db.people[i].jurisdictionAreaId == Some(j);
        var k :| 0 <= k < |db.personAreas| && db.personAreas[k].areaId == ZipAreaId(zip)
          && db.personAreas[k].personId == db.people[i].id;
        assert db.people[i] in db.people && db.personAreas[k] in db.personAreas;
      }
    }
    r
  }

  /** A zip code that no membership edge mentions has no jurisdictions. */
  lemma UnknownZipHasNoJurisdictions(db: Database, zip: string)
    requires forall link :: link in db.personAreas ==> link.areaId != ZipAreaId(zip)
    ensures JurisdictionsForZip(db, zip) == {}
  {
  }
}
