/** The system coordinator: a mirror of the driver's intensities, read by the command handler. */
module SysCoordinator {
  import opened ValStatus
  import LedDriver

  const LIGHT_COUNT := 3

  class Coordinator {
    /** current_intensities: the coordinator's cached copy. */
    const cache: array<u8>

    ghost predicate Valid() {
      cache.Length == LIGHT_COUNT
    }

    /** The static initialiser {0, 0, 0}. */
    constructor ()
      ensures Valid() && fresh(cache)
      ensures cache[..] == [0, 0, 0]
    {
      cache := new u8[LIGHT_COUNT](_ => 0);
    }

    /** SYS_Coordinator_GetLightIntensity: the cached value of a valid light; the output is left alone otherwise. */
    method GetLightIntensity(lightId: u8, prior: u8) returns (status: Status, intensity: u8)
      requires Valid()
      ensures !(1 <= lightId <= LIGHT_COUNT) ==> status == Error && intensity == prior
      ensures 1 <= lightId <= LIGHT_COUNT ==> status == Ok && intensity == cache[lightId - 1]
    {
      if lightId < 1 || lightId > LIGHT_COUNT {
        return Error, prior;
      }
      intensity := cache[lightId - 1];
      status := Ok;
    }

    /** SYS_Coordinator_GetAllLightIntensities: all three cached values, in light order. */
    method GetAllLightIntensities() returns (status: Status, intensities: seq<u8>)
      requires Valid()
      ensures status == Ok
      ensures |intensities| == LIGHT_COUNT
      ensures forall i :: 0 <= i < LIGHT_COUNT ==> intensities[i] == cache[i]
    {
      intensities := cache[..];
      status := Ok;
    }

    /** One iteration of SYS_Coordinator_Task: the cache is overwritten with the driver's intensities. */
    method SyncStep(driver: LedDriver.Driver)
      requires Valid() && driver.Shaped()
      requires cache != driver.intensities
      modifies cache
      ensures driver.Shaped()
      ensures driver.Valid() <==> old(driver.Valid())
      ensures driver.State() == old(driver.State())
      ensures forall i :: 0 <= i < LIGHT_COUNT ==> cache[i] == driver.State()[i].intensity
    {
      var _, values := driver.GetAllIntensities();
      cache[0], cache[1], cache[2] := values[0], values[1], values[2];
    }
  }
}
