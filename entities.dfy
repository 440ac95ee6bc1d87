/** The records the dashboard's client works with: drivers, teams, circuits
    and races, with the per-driver race results a race carries. Only the
    fields the modelled logic reads are kept, plus enough descriptive fields
    to state that an update leaves them alone; floating-point fields
    (circuit length, race distance, temperature, per-result points) are
    dropped and team points are whole numbers. */
module Entities {

  /** The four kinds of record the client fetches. */
  datatype Resource = Drivers | Teams | Circuits | Races

  datatype Team = Team(
    id: int,
    name: string,
    nationality: string,
    points: int,
    active: bool)

  datatype Driver = Driver(
    id: int,
    name: string,
    nationality: string,
    number: int,
    teamId: int,
    active: bool)

  datatype Circuit = Circuit(
    id: int,
    name: string,
    location: string,
    country: string)

  datatype RaceStatus = Scheduled | Completed | Cancelled

  /** One driver's result in one race. */
  datatype RaceDriver = RaceDriver(
    driverId: int,
    raceId: int,
    position: int,
    grid: int,
    fastestLap: string,
    raceTime: string,
    status: string)

  datatype Race = Race(
    id: int,
    name: string,
    season: int,
    round: int,
    circuitId: int,
    circuit: Circuit,
    date: string,
    status: RaceStatus,
    laps: int,
    results: seq<RaceDriver>)
}
