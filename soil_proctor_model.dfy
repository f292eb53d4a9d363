/**
 * The soil proctor record and the fixed sample list that both lab
 * view-models read (`SoilProctorModel.kt`).
 */
module SoilProctorModel {

  /**
   * One soil proctor test. The two measurements are numbers (Kotlin
   * `Double`, modelled as exact reals); every other field is text.
   */
  datatype SoilProctor = SoilProctor(
    id: string,
    projectName: string,
    sampleId: string,
    date: string,
    location: string,
    maxDryDensity: real,
    optimumMoistureContent: real,
    testMethod: string,
    technician: string,
    status: string
  )

  /** `SampleSoilProctors.sampleData`: an immutable list of five records. */
  const SampleData: seq<SoilProctor> := [
    SoilProctor("SP001", "Highway 101 Expansion", "H101-S01", "2023-05-15", "Mile Marker 45",
                125.4, 12.8, "ASTM D698", "John Smith", "Completed"),
    SoilProctor("SP002", "Downtown Office Building", "DOB-S03", "2023-06-02", "Foundation Area B",
                118.7, 14.2, "ASTM D1557", "Maria Rodriguez", "Completed"),
    SoilProctor("SP003", "Riverside Park", "RP-S05", "2023-06-10", "Playground Area",
                110.5, 16.5, "ASTM D698", "David Chen", "In Progress"),
    SoilProctor("SP004", "Highway 101 Expansion", "H101-S08", "2023-06-18", "Mile Marker 47",
                127.1, 11.9, "ASTM D1557", "John Smith", "Completed"),
    SoilProctor("SP005", "Mountain View Residential", "MVR-S02", "2023-07-05", "Lot 23",
                115.8, 15.3, "ASTM D698", "Sarah Johnson", "Pending Review")
  ]

  /** The statuses the sample records use. */
  predicate IsKnownStatus(status: string) {
    status == "Completed" || status == "In Progress" || status == "Pending Review"
  }

  /** Five records, with ids SP001 to SP005 in that order. */
  lemma SampleDataShape()
    ensures |SampleData| == 5
    ensures [SampleData[0].id, SampleData[1].id, SampleData[2].id, SampleData[3].id, SampleData[4].id]
         == ["SP001", "SP002", "SP003", "SP004", "SP005"]
  {
  }

  /** No two sample records share an id. */
  lemma SampleIdsDistinct()
    ensures forall i, j :: 0 <= i < j < |SampleData| ==> SampleData[i].id != SampleData[j].id
  {
  }

  /** Every sample record has one of the three known statuses. */
  lemma SampleStatusesKnown()
    ensures forall p :: p in SampleData ==> IsKnownStatus(p.status)
  {
  }

  /** Exactly the first and the fourth record belong to "Highway 101 Expansion". */
  lemma HighwayRecords()
    ensures forall i :: 0 <= i < |SampleData| ==>
      (SampleData[i].projectName == "Highway 101 Expansion" <==> i == 0 || i == 3)
  {
  }
}
