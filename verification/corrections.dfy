/** Which behaviour an operation follows where the panel's code departs from
    what it evidently means to do (see README, "Findings").

    - `AsWritten` reproduces the code: the edge clamp that snaps every offset
      to one of the two edges, and `fastFloor`, which is one too low on
      whole non-positive values.
    - `Intended` replaces those two helpers by a true clamp and a true floor
      and changes nothing else.
 */
module Corrections {

  datatype Variant = AsWritten | Intended
}
