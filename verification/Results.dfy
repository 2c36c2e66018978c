/** Outcomes of controller operations. */
module Results {

  datatype Option<+T> = None | Some(value: T)

  /** Why a call was answered with an error. */
  datatype Error =
    | Fault                       // the broker call failed and had no effect
    | NotFound                    // the broker does not know the object
    | WrongRouter                 // the load balancer service belongs to another router
    | NoLoadBalancerService       // unmanaged mode, and there is no service to attach to
    | PoolFull                    // every address of the IP pool is allocated
    | UnknownClass                // no load balancer class of the requested name
    | BadServiceTag               // a service tag without separator, on which the process panics

  datatype Result<+T> = Ok(value: T) | Err(error: Error)

  datatype Outcome = Done | Failed(error: Error)

  /** Errors that repeating the run does not cure: no address or no load balancer service can be had. */
  predicate Blocking(e: Error)
  {
    e == PoolFull || e == NotFound || e == WrongRouter || e == NoLoadBalancerService
  }
}
