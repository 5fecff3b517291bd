/** An optional value: a nullable `sp<IBinder>` argument (the token of setTransactionSchedule), or
    a status together with the out-parameter it guards (mapAxis's AxisInfo). */
module Wrappers {

  datatype Option<+T> = None | Some(value: T)
}
