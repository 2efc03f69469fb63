# FalconGuide: models and proofs

FalconGuide fuses inertial, satellite and other measurements into a navigation state. This project models its
estimation algebra, its threads, its state machines over time and its codecs, and proves what they promise.

* **Filter updates** (`matrix`, `block_matrix`, `ekf_update`, `ekf_blocks`, `ekf_stacked`, `gnss_*`, `ukf`,
  `unscented_sums`). Matrices of any shape over exact reals. The vector Joseph update, the models that apply several of
  them in turn, the sequential scalar updates of the tightly coupled model and the unscented transform are methods on
  the filter state; their algebra is proved for every dimension and every list of measurements.
* **Preintegration and the sliding window** (`rotation`, `strapdown`, `imu_preintegrator`, `preintegration_laws`,
  `ceres_cost`, `ceres_window`, `ceres_window_laws`). Unit quaternions act through Eigen's rotation matrix. The
  preintegrator is a class updated sample by sample; the window is a class whose solver may return anything except new
  timestamps or counts. The exponential map is a parameter: any function from rotation vectors to unit quaternions, with
  Exp(0) = identity where that matters.
* **Time** (`timestamps`, `time_ordered_buffer`, `ekf_propagation`, `ekf_protocol`). The bounded buffer, the propagation
  with gap splitting (the unscented filter repeats the same loop, ukf_estimator.cpp lines 274-294), and the rule that
  the error state is zero between calls.
* **Threads** (`measurement_queue`, `estimator_pipeline`, `session`, `session_restart`, `session_replay`,
  `session_command`). Program counters, locks and sleeping threads; a step is what one thread does between two points
  where another may run, and a run is any list of possible steps. Condition variables may wake spuriously. The session
  contains the pipeline with all its steps, the replay thread, the two server threads with their client mutexes, and the
  caller of one lifecycle command, which may itself be a server thread. One lifecycle command is under way at a time:
  every statement about interleavings of a session is about runs in which a command starts only after the one before it
  has returned. The code does not enforce that. A `pause` from the WebSocket that overlaps a Stop from outside can set
  the pause flag after Stop has cleared it (session.cpp lines 73-103), the session is then Idle with the flag set, Start
  does not clear it, and the replay thread of that Start sleeps at once.
* **Codecs** (`bytes`, `web_socket_frames`, `ws_client`, `ws_server`, `ws_cutting`, `base64`, `nmea_sentence`). Bytes
  are integers from 0 to 255; shifts and masks are written as division and remainder.

## Where the code does not do what it says

* The tightly coupled header calls its sequential updates equivalent to the batch update. That holds for the covariance
  (`GnssInformation.SequentialEqualsBatch`). For the error state it holds for all innovations, under any gate and over
  the rows that pass, exactly when each row is P-orthogonal to all earlier rows (`GnssGated.GatedMeanIsBatchMeanIff`),
  because innovations are taken against the nominal state and not corrected for the error already accumulated. Without a
  gate all rows pass, and the statement is `GnssClaim.SequentialMeanIsBatchMeanIff`.
* Models with several blocks share that defect: all innovations are taken against the nominal state and applied in turn
  (aiding_solution.cpp lines 37-116). Under any gate the covariance is that of one update with the passing blocks
  stacked, and the error state is so for all innovations exactly when H_j P H_i^T = 0 for all i < j
  (`EkfStacked.BlocksAreOneUpdateIff`). For position, velocity and attitude blocks this says that the observed axes of
  different blocks are uncorrelated (`EkfStacked.SegmentsAgreeIffUncorrelated`).
* The cost function adds the accelerometer Jacobians to the deltas, while integrating again under the new bias subtracts
  them. A shifted bias is consistent with the motion it produces exactly when the Jacobians send the shift to zero
  (`CeresCosts.ShiftedBiasIsConsistentIff`), which fails for every shift after one interval
  (`CeresCosts.OneIntervalIsInconsistent`).
* A tightly coupled epoch that ends below its minimum of satellites is rejected after some rows were applied, and its
  error state stays. Exactly the options without a minimum, or with a minimum of one and no gate, exclude this, at every
  covariance and for every pair of rows with noise and prior variance
  (`EkfProtocol.GeometryClearsExactlyUnderSafeOptions`); a row's Doppler does not count, so a minimum of one with a gate
  is not enough.
* A preintegrated factor is stamped from keyframe to keyframe but covers only the integrable intervals between its
  samples, from the first to the last if no gap is skipped (`ImuPreintegrators.CoversFirstToLastSample`). For samples in
  order and between the keyframes the two times agree exactly when a sample lies at each keyframe and no gap is longer
  than a second (`ImuPreintegrators.CoversStampedSpanIff`, for every factor of a reachable window
  `CeresWindows.EveryFactorCovers`); `CeresWindows.FactorMissesTime` is a run in which a factor covers a third.
* The queue's shutdown flag is never cleared, so a session that is stopped and started again runs without delivering
  anything (`SessionRestarts.StartStopStart`). After a complete Stop a continuation delivers exactly when it replaces
  the pipeline, which only Reconfigure does (session.cpp lines 116-135), or when the flag was not set and the queue has
  room (`SessionRestarts.RestartDeliversExactlyWhen`).
* A command on the local socket runs while its thread holds the client mutex, and every lifecycle command broadcasts,
  which takes the same mutex on the same thread (ipc_server.cpp lines 122-143 and 179-181). Such a command never returns
  once past its guard (`SessionRestarts.LocalSocketCommandsNeverReturn`). A Stop on the WebSocket's thread waits for a
  worker that waits for that thread's mutex (ws_server.cpp lines 181-193 and 362), or joins itself; the exception is
  swallowed and the status never becomes Idle. A Stop under way returns under every schedule exactly when its caller is
  no server thread and no server thread is inside a command (`Sessions.StopReturnsExactlyWhenUnentangled`); otherwise no
  run returns. A status query on the local socket is enough to block a Stop from outside (`Sessions.QueryBlocksStop`).
* Start is allowed after Completed (session.cpp lines 40-43) and then assigns over a thread that was not joined, which
  ends the process. It can return exactly when the replay thread was joined, no WebSocket server is left that cannot be
  joined, and the local socket's mutex is free, and after Completed the first two never both hold
  (`SessionRestarts.StartReturnsExactlyWhenJoined`).
* Timestamps of different clocks can compare in a circle or not at all. Which clocks the timestamps carry makes them
  ordered at all times exactly when one clock covers them (`Timestamps.OrderedExactlyOnOneClock`), so the buffer's order
  is claimed on one clock.
* The server's drain loop stops at the first frame that is not text and leaves what follows for the next read. Call a
  frame neither text nor close that has a complete text frame behind it a hurdle; frames behind a close frame, or behind
  one of an impossible size, do not count. Each hurdle costs a read. For reads of at most `limit` bytes, the handler
  gets the same for every cutting of a stream into reads exactly when from no hurdle on, itself included, there are more
  hurdles than full reads fit into the bytes behind it (`WsCuttings.CuttingMattersExactlyWhenCrowded`, for every limit;
  the server's is 4096). For a stream that fits one read that means there is no hurdle at all
  (`WsCuttings.CuttingMattersExactlyBehindOther`). A text frame behind a ping can be left in the buffer exactly when it
  is shorter than a full read (`WsCuttings.TextBehindPingCanStallIff`).

## Model

| member | source | states |
|---|---|---|
| EkfUpdates.EkfUpdate | src/estimation/include/falconguide/estimation/backends/ekf/measurement_models/ekf_update.hpp:25-44 | the update and its gate turn the passed error state and covariance into exactly the specified ones, or leave both and reject |
| EkfUpdates.GateBoundsWhitened | src/estimation/include/falconguide/estimation/backends/ekf/measurement_models/ekf_update.hpp:32-35 | with the innovation whitened by any W with W^T W = S^-1, it is rejected exactly when the gate is positive and less than its squared length |
| EkfUpdates.JosephIsCovariance | src/estimation/include/falconguide/estimation/backends/ekf/measurement_models/ekf_update.hpp:40-42 | the Joseph form gives a symmetric positive semidefinite covariance for any gain |
| EkfUpdates.JosephWithOptimalGain | src/estimation/include/falconguide/estimation/backends/ekf/measurement_models/ekf_update.hpp:37-42 | for a gain with K S = P H^T it equals P - K S K^T |
| EkfUpdates.InformationForm | src/estimation/include/falconguide/estimation/backends/ekf/measurement_models/ekf_update.hpp:37-42 | its product with the old information plus H^T R^-1 H is the identity |
| EkfUpdates.VarianceDoesNotGrow | src/estimation/include/falconguide/estimation/backends/ekf/measurement_models/ekf_update.hpp:37-42 | no direction has more variance after an update |
| EkfUpdates.RunKeepsCovariance | src/estimation/src/backends/ekf/ekf_estimator.cpp:219-223 | every list of propagations and updates keeps a symmetric positive semidefinite covariance |
| EkfUpdates.UpdatesNeverGrowVariance | src/estimation/include/falconguide/estimation/backends/ekf/measurement_models/ekf_update.hpp:25-44 | along every list of updates the variance in every direction only shrinks |
| GnssTightlyCoupled.ScalarUpdate | src/estimation/src/backends/ekf/measurement_models/gnss_tightly_coupled.cpp:65-85 | one scalar update with its variance and innovation gates |
| GnssTightlyCoupled.PassesWithinGate | src/estimation/src/backends/ekf/measurement_models/gnss_tightly_coupled.cpp:68-74 | with s the innovation's standard deviation: under a positive gate exactly the innovations from -gate s to gate s pass, without a gate all, without variance none |
| GnssTightlyCoupled.ApplySatellite | src/estimation/src/backends/ekf/measurement_models/gnss_tightly_coupled.cpp:117-178 | pseudorange, then Doppler, of one satellite; only an accepted pseudorange counts |
| GnssTightlyCoupled.UsableSatelliteRows | src/estimation/src/backends/ekf/measurement_models/gnss_tightly_coupled.cpp:117-178 | a usable satellite contributes its pseudorange first, then its Doppler reading if it has one, then the others follow |
| GnssTightlyCoupled.UnusableSatelliteIsMissing | src/estimation/src/backends/ekf/measurement_models/gnss_tightly_coupled.cpp:118-127 | a satellite that is not usable may as well be missing, wherever it stands |
| GnssTightlyCoupled.UsableSatellitesCount | src/estimation/src/backends/ekf/measurement_models/gnss_tightly_coupled.cpp:115-157 | exactly the usable satellites have a row that counts, one each |
| GnssTightlyCoupled.Apply | src/estimation/src/backends/ekf/measurement_models/gnss_tightly_coupled.cpp:92-182 | the checks, the loop over satellites, and rejection below the minimum count; a rejected epoch keeps the updates already made |
| GnssTightlyCoupled.PrecheckOutcomes | src/estimation/src/backends/ekf/measurement_models/gnss_tightly_coupled.cpp:96-102 | not initialised exactly when there is a clock segment but no tangent plane or nominal clock; past the checks exactly when nothing is missing and the epoch is valid and not empty |
| GnssTightlyCoupled.RunConcat | src/estimation/src/backends/ekf/measurement_models/gnss_tightly_coupled.cpp:117-179 | an epoch split anywhere gives the same final state and the same accepted rows |
| GnssInformation.ScalarIsVectorUpdate | src/estimation/src/backends/ekf/measurement_models/gnss_tightly_coupled.cpp:76-83 | the scalar Joseph form is the vector one with a one-row H |
| GnssInformation.SequentialInformation | src/estimation/src/backends/ekf/measurement_models/gnss_tightly_coupled.cpp:117-179 | the final covariance times (P^-1 + the sum of h h^T / sigma^2 over the accepted rows) is the identity, for any dimension, gate and row list |
| GnssInformation.OrderDoesNotMatter | src/estimation/src/backends/ekf/measurement_models/gnss_tightly_coupled.cpp:117-179 | two runs that accept the same rows in different orders end with the same covariance |
| GnssInformation.SequentialEqualsBatch | src/estimation/include/falconguide/estimation/backends/ekf/measurement_models/gnss_tightly_coupled.hpp:65-67 | the covariance equals that of one batch update with the accepted rows stacked |
| GnssMean.MeansAgreeIffOrthogonal | src/estimation/src/backends/ekf/measurement_models/gnss_tightly_coupled.cpp:137-170 | the sequential error state equals P' times the sum of h nu / sigma^2 for all innovations exactly when each row is P-orthogonal to all earlier ones |
| GnssGated.GatedMeanIsBatchMeanIff | src/estimation/include/falconguide/estimation/backends/ekf/measurement_models/gnss_tightly_coupled.hpp:65-67 | against the batch EkfUpdate over the rows that pass, under any gate: covariances always agree, error states agree for all innovations exactly when each row is P-orthogonal to all earlier ones |
| GnssClaim.RepeatedRowDiffers | src/estimation/include/falconguide/estimation/backends/ekf/measurement_models/gnss_tightly_coupled.hpp:65-67 | any row with nonzero prior variance, read twice, already separates the two error states |
| Ukf.ComputeWeights | src/estimation/src/backends/ukf/ukf_estimator.cpp:24-38 | the Merwe weights |
| Ukf.WeightsTotal | src/estimation/src/backends/ukf/ukf_estimator.cpp:24-38 | the mean weights sum to one |
| Ukf.GenerateSigmaPoints | src/estimation/src/backends/ukf/ukf_estimator.cpp:185-203 | zero, the columns of L, and their negatives |
| Ukf.SigmaMean | src/estimation/src/backends/ukf/ukf_estimator.cpp:185-203 | the points' weighted mean is zero |
| Ukf.SigmaCovariance | src/estimation/src/backends/ukf/ukf_estimator.cpp:185-203 | their weighted covariance is P when L L^T = (n + lambda) P |
| Ukf.ApplyMeasurement | src/estimation/src/backends/ukf/ukf_estimator.cpp:352-389 | the accumulating loops compute the unscented transform and the updated state and covariance |
| Ukf.AffineTransform | src/estimation/src/backends/ukf/ukf_estimator.cpp:359-373 | for an affine measurement: predict(x), H P H^T + R and P H^T |
| Ukf.UnscentedIsKalman | src/estimation/src/backends/ukf/ukf_estimator.cpp:352-389 | for an affine measurement the correction and covariance are those of EkfUpdate with its gate off from a zero error state |
| UnscentedSums.MeanEntry | src/estimation/src/backends/ukf/ukf_estimator.cpp:359-363 | for any measurement in any dimension each entry of the predicted mean is the sum of all 2n + 1 predictions with the mean weights |
| UnscentedSums.InnovationEntry | src/estimation/src/backends/ukf/ukf_estimator.cpp:365-373 | each entry of S is R plus the sum over all 2n + 1 points of the products of deviations from that mean, with the covariance weights |
| UnscentedSums.CrossEntry | src/estimation/src/backends/ukf/ukf_estimator.cpp:365-373 | each entry of the cross covariance is the sum over all points of point times deviation, with the covariance weights |
| UnscentedSums.CentreOfInnovation | src/estimation/src/backends/ukf/ukf_estimator.cpp:359-373 | for any measurement: S is R, the outer points' products of deviations from the centre point's prediction, and beta - alpha^2 times the product of the mean's deviations from it |
| UnscentedSums.CentreOfCross | src/estimation/src/backends/ukf/ukf_estimator.cpp:359-373 | for any measurement the cross covariance pairs the outer points with the deviations from the centre point's prediction |
| UnscentedSums.SquaredDistanceTransform | src/estimation/src/backends/ukf/ukf_estimator.cpp:352-373 | measuring the squared distance of the first coordinate from x, in any dimension, with a triangular factor: mean p, S = R + (alpha^2 (n - 1 + kappa) + beta) p^2, no cross covariance |
| Ukf.PropagatePoints | src/estimation/src/backends/ukf/ukf_estimator.cpp:214-272 | each point moved by the motion, then the weighted mean and the weighted covariance plus the process noise, by the accumulating loops |
| UnscentedSums.PredictionEntries | src/estimation/src/backends/ukf/ukf_estimator.cpp:227-268 | for any motion each entry of the predicted mean and covariance is that sum over all points, with the process noise added |
| UnscentedSums.CentreOfPrediction | src/estimation/src/backends/ukf/ukf_estimator.cpp:227-268 | for any motion the centre point enters the predicted covariance as it does for a measurement |
| Ukf.UnscentedPredictionIsKalman | src/estimation/src/backends/ukf/ukf_estimator.cpp:205-272 | for affine motion the prediction is the EKF's: the mean moves along, and the covariance is F P F^T + Q |
| Rotations.RotateCompose | src/estimation/include/falconguide/estimation/backends/ceres/imu_preintegrator.hpp:168-174 | rotating by a product of unit quaternions (Eigen's matrix) is rotating by one, then the other |
| Rotations.RotateIsRodrigues | src/estimation/include/falconguide/estimation/backends/ceres/imu_preintegrator.hpp:170-172 | a quaternion (w, u) turns v to v + 2 w (u x v) + 2 u x (u x v) |
| ImuPreintegrators.Preintegrator.Reset | src/estimation/include/falconguide/estimation/backends/ceres/imu_preintegrator.hpp:126-144 | forgets everything but bias and start time |
| ImuPreintegrators.Preintegrator.Integrate | src/estimation/include/falconguide/estimation/backends/ceres/imu_preintegrator.hpp:146-219 | one sample: stored only, skipped over (gap not in (0, 1] s), or integrated with its midpoint, deltas and five Jacobians |
| ImuPreintegrators.MidpointIsHalfway | src/estimation/include/falconguide/estimation/backends/ceres/imu_preintegrator.hpp:161-168 | the midpoint force and rate lie halfway between the two readings, less the biases |
| PreintegrationLaws.EndsExchange | src/estimation/include/falconguide/estimation/backends/ceres/imu_preintegrator.hpp:161-168 | exchanging the readings of the two ends changes neither midpoint |
| PreintegrationLaws.CommonErrorCancels | src/estimation/include/falconguide/estimation/backends/ceres/imu_preintegrator.hpp:161-168 | for every list of samples, an error common to all forces and the accelerometer bias, and one common to all rates and the gyroscope bias, leave deltas and Jacobians as they are |
| PreintegrationLaws.ConstantForceAccelerates | src/estimation/include/falconguide/estimation/backends/ceres/imu_preintegrator.hpp:170-178 | constant force with a rate that equals the bias: no rotation, velocity a T and position a T^2 / 2, with a the force less the bias and T the covered time |
| PreintegrationLaws.ConstantRateTurns | src/estimation/include/falconguide/estimation/backends/ceres/imu_preintegrator.hpp:177 | constant rate: the rotation is the one by rate less bias times the covered time, for any exponential that adds up along that axis |
| PreintegrationLaws.GyroJacobiansAccumulateDrift | src/estimation/include/falconguide/estimation/backends/ceres/imu_preintegrator.hpp:207-213 | for every list of samples and every gyroscope bias error d, the three gyroscope Jacobians send d to the attitude, velocity and position errors that the linear error equations accumulate |
| ImuPreintegrators.Preintegrator.Finalize | src/estimation/include/falconguide/estimation/backends/ceres/imu_preintegrator.hpp:221-243 | the factor holds the deltas, Jacobians and linearisation bias |
| ImuPreintegrators.PredictedExtends | src/estimation/include/falconguide/estimation/backends/ceres/imu_preintegrator.hpp:168-174 | extending the delta by an interval is one navigation step from the predicted motion |
| ImuPreintegrators.PreintegrationIsStrapdown | src/estimation/src/backends/ceres/ceres_estimator.cpp:220-226 | for every start motion and sample list the one-shot prediction equals stepping the navigation equations interval by interval |
| ImuPreintegrators.LinearInAccelerometerBias | src/estimation/include/falconguide/estimation/backends/ceres/imu_preintegrator.hpp:209-211 | shifting the accelerometer bias by d changes the deltas by exactly minus Jacobian times d, and leaves the rotation |
| ImuPreintegrators.IntegratesCoveredTime | src/estimation/include/falconguide/estimation/backends/ceres/imu_preintegrator.hpp:147-159 | for any samples in any order the integrated time is the sum of the gaps in (0, 1] s between neighbours |
| ImuPreintegrators.CoversStampedSpanIff | src/estimation/include/falconguide/estimation/backends/ceres/imu_preintegrator.hpp:147-159 | for samples in order between the keyframes it is the stamped span exactly when a sample lies at each keyframe and no gap is longer than a second |
| CeresCosts.ResidualVanishesAtPrediction | src/estimation/include/falconguide/estimation/backends/ceres/ceres_cost_functions.hpp:59-123 | all nine residuals vanish exactly at the state predicted with the corrected deltas, up to the sign of its quaternion |
| CeresCosts.PredictionHasNoResidual | src/estimation/include/falconguide/estimation/backends/ceres/ceres_cost_functions.hpp:78-112 | with the start bias at the linearisation point the one-shot prediction has zero residual |
| CeresCosts.ResidualIsDistance | src/estimation/include/falconguide/estimation/backends/ceres/ceres_cost_functions.hpp:102-122 | position and velocity residuals are the scale times the distances from the predicted state, seen from the first keyframe |
| CeresCosts.AttitudeResidual | src/estimation/include/falconguide/estimation/backends/ceres/ceres_cost_functions.hpp:105-109 | an attitude off the predicted one by e leaves twice the vector part of e, or of -e, times the scale |
| CeresCosts.ShiftMovesResidual | src/estimation/include/falconguide/estimation/backends/ceres/ceres_cost_functions.hpp:78-112 | for fixed keyframes, shifting the biases by da and dg lowers the position residual by scale (dpDba da + dpDbg dg) and the velocity residual by scale (dvDba da + dvDbg dg) |
| CeresCosts.ShiftMovesPrediction | src/estimation/include/falconguide/estimation/backends/ceres/ceres_cost_functions.hpp:78-112 | with the biases da and dg off the linearisation point, the state without residual is the one-shot prediction moved by the turned Jacobians times the shifts and turned by Exp(dqDbg dg) |
| CeresCosts.CorrectionIsOffByTwice | src/estimation/include/falconguide/estimation/backends/ceres/ceres_cost_functions.hpp:90-100 | corrected deltas differ from deltas integrated again under the shifted bias by twice Jacobian times shift |
| CeresCosts.ShiftedBiasIsConsistentIff | src/estimation/include/falconguide/estimation/backends/ceres/ceres_cost_functions.hpp:78-112 | after a bias shift d the motion really reached under the new bias has no residual exactly when the Jacobians send d to zero |
| CeresCosts.OneIntervalIsInconsistent | src/estimation/include/falconguide/estimation/backends/ceres/ceres_cost_functions.hpp:90-100 | one interval between two samples makes every nonzero shift inconsistent |
| CeresWindows.SlidingWindow.AddImu | src/estimation/src/backends/ceres/ceres_estimator.cpp:113-117 | buffering up to 2000 samples, integrating once active |
| CeresWindowLaws.BufferHoldsFirst | src/estimation/src/backends/ceres/ceres_estimator.cpp:113-137 | in every reachable state the buffer holds the first 2000 samples since the last reset, and the window is initialised exactly when a valid fix came since |
| CeresWindows.SlidingWindow.AddGnss | src/estimation/src/backends/ceres/ceres_estimator.cpp:119-137 | rejects, initialises, refines the newest velocity or creates a keyframe |
| CeresWindowLaws.RefinesExactlyWhenNear | src/estimation/src/backends/ceres/ceres_estimator.cpp:124-134 | a fix refines the newest keyframe exactly when it is nearer than the minimum distance and less than 200 ms later |
| CeresWindowLaws.FixRefinesOrMakesKeyframe | src/estimation/src/backends/ceres/ceres_estimator.cpp:119-137 | such a fix leaves everything but the newest velocity; any other valid one makes a keyframe at its time, from which preintegration starts again |
| CeresWindowLaws.InvalidFixIsRejected | src/estimation/src/backends/ceres/ceres_estimator.cpp:119-122 | a fix is rejected, changing nothing, exactly when it is invalid |
| CeresWindows.SlidingWindow.InitFromGnss | src/estimation/src/backends/ceres/ceres_estimator.cpp:139-178 | first keyframe at the origin; buffered samples not before the fix are replayed |
| CeresWindowLaws.FirstFixStartsWindow | src/estimation/src/backends/ceres/ceres_estimator.cpp:139-178 | the first valid fix makes the one keyframe, at rest in the origin with zero biases |
| CeresWindowLaws.NotBeforeKeepsLate | src/estimation/src/backends/ceres/ceres_estimator.cpp:170-173 | of the buffered samples exactly those not before the fix are integrated, each as often as it is there |
| CeresWindows.SlidingWindow.CreateKeyframe | src/estimation/src/backends/ceres/ceres_estimator.cpp:211-251 | prediction, new factor, trimming loop, arbitrary solver result, restart of the preintegration |
| CeresWindowLaws.SolverReachesExactly | src/estimation/src/backends/ceres/ceres_estimator.cpp:253-300 | some solver result leads from one list of keyframes to another exactly when the timestamps and the oldest pose and velocity are the same |
| CeresWindows.TrimKeepsChain | src/estimation/src/backends/ceres/ceres_estimator.cpp:235-239 | trimming keeps the chain and its newest end |
| CeresWindows.EveryRunIsChained | src/estimation/src/backends/ceres/ceres_estimator.cpp:139-251 | in every reachable state: factors + 1 = keyframes <= maximum + 1, each factor spans its two keyframes, the running preintegration starts at the newest keyframe with its bias and holds the samples since |
| CeresWindows.SolverStartsAtPrediction | src/estimation/src/backends/ceres/ceres_estimator.cpp:211-246 | the newest factor has zero residual when the solver starts, and the new keyframe is where stepping the navigation equations leads |
| CeresWindows.EveryFactorCovers | src/estimation/src/backends/ceres/ceres_estimator.cpp:113-251 | in every reachable window each factor covers the integrable time of the samples added between its keyframes, and its stamped span exactly under that condition |
| CeresWindows.FactorMissesTime | src/estimation/src/backends/ceres/ceres_estimator.cpp:211-246 | fixes at 0 s and 0.3 s with samples at 0.1 s and 0.2 s leave a factor that covers 0.1 s |
| Timestamps.OneClockIsOrdered | src/core/include/falconguide/core/time_helpers.hpp:24-58 | on one clock comparison is a total preorder |
| Timestamps.MixedClocksCanCompareInACircle | src/core/include/falconguide/core/time_helpers.hpp:42-58 | across clocks it is not: a circle of strict comparisons |
| Timestamps.OrderedExactlyOnOneClock | src/core/include/falconguide/core/time_helpers.hpp:42-58 | a set of clock patterns admits neither an incomparable pair nor a circle, whatever the times, exactly when one clock covers it |
| Timestamps.DifferenceAgreesWithOrder | src/core/include/falconguide/core/time_helpers.hpp:77-87 | a time difference has the sign of the comparison |
| Timestamps.TimesFromOneClock | src/core/include/falconguide/core/time_helpers.hpp:42-87 | the monotonic clock decides when both have it, GPS time otherwise; a difference is that of the clock used and missing across GPS weeks |
| Timestamps.GpsTimesCompareAsSeconds | src/core/include/falconguide/core/time_helpers.hpp:24-38 | GPS times within their weeks compare as the seconds since the first week |
| Timestamps.GpsDifferenceDropsFraction | src/core/include/falconguide/core/time_helpers.hpp:82-84 | a GPS difference is the exact one in nanoseconds with its fraction dropped, towards zero |
| TimeOrderedBuffers.TimeOrderedBuffer.Insert | src/core/include/falconguide/core/buffers/time_ordered_buffer.hpp:59-94 | where a reading goes, which are refused, and what is evicted |
| TimeOrderedBuffers.PlacementOnAnyClock | src/core/include/falconguide/core/buffers/time_ordered_buffer.hpp:67-93 | on any clocks: appended when not before the newest, refused as out of order or not comparable exactly under these conditions, and otherwise put before the first reading it is not after |
| TimeOrderedBuffers.DropsExactlyWhenFull | src/core/include/falconguide/core/buffers/time_ordered_buffer.hpp:59-130 | an accepted reading drops the oldest exactly when the buffer was full; a refused one changes nothing |
| TimeOrderedBuffers.TimeOrderedBuffer.EnforceMaxSize | src/core/include/falconguide/core/buffers/time_ordered_buffer.hpp:124-130 | drops the oldest when over the limit; zero is no limit |
| TimeOrderedBuffers.TimeOrderedBuffer.PopUntil | src/core/include/falconguide/core/buffers/time_ordered_buffer.hpp:101-118 | pops the front run up to the target |
| TimeOrderedBuffers.PopTakesFrontRun | src/core/include/falconguide/core/buffers/time_ordered_buffer.hpp:101-118 | on any clocks a pop takes readings from the front until the first that is not to be taken |
| TimeOrderedBuffers.RunConserves | src/core/include/falconguide/core/buffers/time_ordered_buffer.hpp:59-130 | popped + evicted + held is a permutation of the accepted readings, on every run |
| TimeOrderedBuffers.RunKeepsOrder | src/core/include/falconguide/core/buffers/time_ordered_buffer.hpp:59-130 | on one clock the buffer stays sorted and within its size |
| TimeOrderedBuffers.PopTakesExactly | src/core/include/falconguide/core/buffers/time_ordered_buffer.hpp:98-118 | a pop returns precisely the readings not after the target |
| TimeOrderedBuffers.InsertionsKeepLatest | src/core/include/falconguide/core/buffers/time_ordered_buffer.hpp:59-94 | after any insertions the buffer holds the latest ones: as many as fit, and no evicted reading is after a held one |
| TimeOrderedBuffers.RefusedExactlyWhenLate | src/core/include/falconguide/core/buffers/time_ordered_buffer.hpp:80-82 | without reordering a reading is refused exactly when older than the newest |
| EkfPropagation.Propagator.PropagateImu | src/estimation/src/backends/ekf/ekf_estimator.cpp:157-179 | the nominal part of one propagation |
| Strapdown.FallsFreely | src/estimation/src/backends/ekf/ekf_estimator.cpp:171-178 | without specific force the velocity changes by 9.80665 m/s^2 downwards and the position by half of that times t^2 |
| EkfPropagation.CommonErrorCancels | src/estimation/src/backends/ekf/ekf_estimator.cpp:166-168 | over every batch, an error common to all forces and the accelerometer bias, and one common to all rates and the gyroscope bias, change nothing but the biases |
| EkfPropagation.CarriedOverBatch | src/estimation/src/backends/ekf/ekf_estimator.cpp:157-179 | over every batch whose corrected readings just carry the weight without a rate, the vehicle goes straight on by velocity times elapsed steps and keeps all else; at rest it stays |
| EkfPropagation.Propagator.PropagateTo | src/estimation/src/backends/ekf/ekf_estimator.cpp:234-255 | pops the batch and advances over each reading |
| EkfPropagation.Propagator.AdvanceBy | src/estimation/src/backends/ekf/ekf_estimator.cpp:237-253 | the clock of a clockless state, the skips, and the gap-splitting loop, which terminates |
| EkfPropagation.ReadingMovesStateIff | src/estimation/src/backends/ekf/ekf_estimator.cpp:241-253 | on the monotonic clock a reading less than the minimum gap after the state changes nothing, any other is propagated over exactly the gap and sets the clock |
| EkfPropagation.ReadingOnOtherClock | src/estimation/src/backends/ekf/ekf_estimator.cpp:237-242 | a state without any clock only takes the reading's, and one without a clock in common with it stays as it is |
| EkfPropagation.SplitCoversGap | src/estimation/src/backends/ekf/ekf_estimator.cpp:246-252 | the steps of a gap lie in (0, max] and add up to it, and all but the last have the full length |
| EkfPropagation.SplittingIsOneStep | src/estimation/src/backends/ekf/ekf_estimator.cpp:164-179 | for zero corrected rate the split steps give the same state as one step |
| EkfPropagation.StepsAddUpToElapsedTime | src/estimation/src/backends/ekf/ekf_estimator.cpp:234-255 | on every run on the monotonic clock all steps lie in (0, max], their sum is nominal minus initial time, and time never goes back |
| EkfProtocol.ApplyBlocks | src/estimation/src/backends/ekf/measurement_models/aiding_solution.cpp:37-116 | models with several blocks: applied one after another, accepted if any is |
| EkfStacked.AcceptedIffOnePasses | src/estimation/src/backends/ekf/measurement_models/aiding_solution.cpp:37-116 | the blocks are accepted together exactly when one of them passes its gate |
| EkfBlocks.AfterInformation | src/estimation/src/backends/ekf/measurement_models/aiding_solution.cpp:37-116 | the covariance after any list of blocks with positive definite noise, times P^-1 + the sum of H^T R^-1 H, is the identity |
| EkfBlocks.HeadGain | src/estimation/include/falconguide/estimation/backends/ekf/measurement_models/ekf_update.hpp:37-42 | the gain of a block is its share P' H^T R^-1 of the stacked gain exactly when no later block's H P sees its transposed H |
| EkfStacked.StackedUpdate | src/estimation/include/falconguide/estimation/backends/ekf/measurement_models/ekf_update.hpp:25-44 | one ungated update with all blocks stacked ends with the covariance of the blocks in turn and with P' times the sum of H^T R^-1 dz |
| EkfStacked.BlocksAreOneUpdateIff | src/estimation/src/backends/ekf/measurement_models/aiding_solution.cpp:37-116 | under any gate, against one update with the passing blocks stacked: covariances always agree, error states agree for all innovations exactly when H_j P H_i^T = 0 for all i < j |
| EkfStacked.SegmentsAgreeIffUncorrelated | src/estimation/src/backends/ekf/measurement_models/aiding_solution.cpp:53-104 | for blocks that read segments of the state, some axes perhaps unobserved, that means the observed axes of different blocks are uncorrelated |
| EkfProtocol.AddMeasurement | src/estimation/src/backends/ekf/ekf_estimator.cpp:86-117 | an accepted measurement clears the error state; any other outcome leaves what the model left |
| EkfProtocol.CallClearsError | src/estimation/src/backends/ekf/ekf_estimator.cpp:92-113 | from a zero error state, a call leaves it zero unless an epoch ends below its minimum after partial updates |
| EkfProtocol.ErrorIsZeroBetweenCalls | src/estimation/src/backends/ekf/ekf_estimator.cpp:66-118 | on every run of such calls the error state is zero between calls |
| EkfProtocol.GeometryClearsExactlyUnderSafeOptions | src/estimation/src/backends/ekf/measurement_models/gnss_tightly_coupled.cpp:117-182 | at any covariance, for any pseudorange and Doppler row with nonzero sigma and prior variance: the epoch leaves a zero error state for all innovations exactly when the minimum is zero, or one with the gate off |
| EkfProtocol.ClearsExactlyUnderSafeOptions | src/estimation/src/backends/ekf/measurement_models/gnss_tightly_coupled.cpp:181-182 | tightly coupled epochs always leave a zero error state exactly when the minimum is zero, or one with the gate off |
| MeasurementQueues.MeasurementQueue.Push | src/estimation/include/falconguide/estimation/measurement_queue.hpp:35-41 | refused when full or shut down, appended otherwise |
| MeasurementQueues.MeasurementQueue.Pop | src/estimation/include/falconguide/estimation/measurement_queue.hpp:45-52 | the front, or nothing only after shutdown |
| MeasurementQueues.MeasurementQueue.RequestShutdown | src/estimation/include/falconguide/estimation/measurement_queue.hpp:55-59 | sets the flag and leaves the queue |
| EstimatorPipelines.EveryRunIsSafe | src/estimation/src/estimator_pipeline.cpp:13-56 | every interleaving: accepted = delivered ++ in hand ++ queued, the queue within capacity, and no sleep while there is work or shutdown |
| EstimatorPipelines.StopDrains | src/estimation/include/falconguide/estimation/estimator_pipeline.hpp:66-67 | when Stop returns everything accepted has been delivered |
| EstimatorPipelines.WorkRunsOut | src/estimation/src/estimator_pipeline.cpp:42-56 | after shutdown each worker step uses up a bounded amount of work |
| EstimatorPipelines.StopCanReturn | src/estimation/src/estimator_pipeline.cpp:24-29 | no deadlock inside the pipeline: from every reachable wait in Stop some run without spurious wake-ups lets it return, provided each delivery returns |
| EstimatorPipelines.AcceptsExactlyWhenOpen | src/estimation/include/falconguide/estimation/measurement_queue.hpp:35-59 | from a reachable state some continuation accepts a measurement exactly when the capacity is positive, shutdown is clear and there is a producer, which once Stop has cleared the running flag must be past it |
| EstimatorPipelines.NothingAcceptedAfterShutdown | src/estimation/include/falconguide/estimation/measurement_queue.hpp:35-59 | the shutdown flag is never cleared, and with it set nothing is accepted, whatever follows |
| EstimatorPipelines.RestartedIsClosed | src/estimation/src/estimator_pipeline.cpp:18-29 | the run that starts, stops and starts again has a worker and the running flag, and accepts nothing in any continuation |
| Sessions.RunKeepsInvariant | src/app/src/session.cpp:40-190 | every interleaving of commands (one at a time), replay thread, pipeline and servers keeps the locks exclusive, loses no wake-up, confines the replay thread between Start and the join, and keeps the pipeline's own invariant |
| Sessions.EverySessionIsSafe | src/app/src/session.cpp:15-190 | from a freshly built session every interleaving, with one lifecycle command at a time, is in a state with that invariant, unless the process has ended |
| SessionCommands.CommandIsUnderWayIffTaken | src/app/src/session.cpp:40-135 | which commands are taken in which states; a refused one changes nothing, except a configure on the local socket, whose thread then waits for its own mutex |
| SessionCommands.PauseAndResumeTakeEffect | src/app/src/session.cpp:95-114 | on every run, when a taken Pause or Resume has returned and no other command began, flag and status are as it says, unless the data ended |
| SessionReplays.ReadsOnExactlyWhenRunning | src/app/src/session.cpp:140-158 | in every reachable state with the replay thread at the head of its loop and no command under way, the status is Running or Paused, and some continuation without a command reads exactly when it is Running |
| SessionReplays.PausedAcceptsAtMostOne | src/app/src/session.cpp:145-178 | while paused and without a command at most the one measurement already past the pause is accepted, on every run |
| SessionReplays.CompletedOnlyAtEnd | src/app/src/session.cpp:150-190 | on every run no session is completed before its replay thread read the end of the data |
| SessionReplays.EndOfDataCompletes | src/app/src/session.cpp:150-190 | reading the end of the data without a command under way can complete the session, and whenever the thread has exited the status is Completed |
| SessionCommands.EveryStateIsSent | src/estimation/src/estimator_pipeline.cpp:42-56 | on every run each delivered measurement was fused once and each new state sent to the local socket's clients and the WebSocket's, but for the one in hand |
| SessionCommands.ClientsAreExclusive | src/app/src/ipc_server.cpp:122-191 | no thread broadcasts on a server, or clears its clients, while the server's own thread has their mutex |
| SessionCommands.JoiningItself | src/app/src/session.cpp:73-93 | a Stop on the WebSocket's thread that comes to join itself returns without a status, a Reconfigure ends the process, and any other caller waits |
| SessionCommands.ServerGoneUnderAnnouncement | src/app/src/session.cpp:116-135 | dropping the local socket's server while the replay thread announces its end ends the process exactly when a Reconfigure does it |
| Sessions.StopIsComplete | src/app/src/session.cpp:73-93 | a Stop that sets Idle has the replay thread joined, everything accepted delivered, both servers down and no server thread inside a command |
| Sessions.IdleStays | src/app/src/session.cpp:73-93 | after that Stop only a new command can take a step, so nothing else writes the status |
| Sessions.StopReturnsExactlyWhenUnentangled | src/app/src/session.cpp:73-93 | every schedule in which no client command starts lets a Stop under way return with Idle exactly when its caller is no server thread and no server thread is inside a command; otherwise no run does |
| Sessions.StopNeverBlocks | src/app/src/session.cpp:73-93 | while such a Stop is under way the next step towards its return is possible |
| Sessions.StopReturns | src/app/src/session.cpp:73-93 | such a Stop returns within a bound on the steps that are neither spurious wake-ups nor idle rounds of a server |
| Sessions.QueryBlocksStop | src/app/src/ipc_server.cpp:122-143 | a query on the local socket during a Stop keeps every run from returning |
| SessionRestarts.LocalSocketCommandsNeverReturn | src/app/src/ipc_server.cpp:122-191 | a command on the local socket that gets past its guard never gives the server thread back, on any run |
| SessionRestarts.ServerThreadCannotStop | src/app/src/ws_server.cpp:181-193 | for either server thread a reachable run in which it issued a Stop that no continuation lets return |
| SessionRestarts.StartReturnsExactlyWhenJoined | src/app/src/session.cpp:40-71 | a Start that finds its data can return exactly when the replay thread is joined, the WebSocket server is not left to be joined, the caller is not the local socket's thread and that thread is not stuck; after Completed it never can |
| SessionRestarts.NoDeliveryBeforeSwap | src/app/src/session.cpp:116-135 | from a drained pipeline that is closed nothing is delivered before Reconfigure replaces it |
| SessionRestarts.RestartDeliversExactlyWhen | src/app/src/session.cpp:62-135 | after a complete Stop some continuation delivers exactly when it replaces the pipeline, or shutdown is clear and the capacity positive |
| SessionRestarts.StartStopStart | src/app/src/session.cpp:40-93 | the run that starts, stops and starts again is running with a replay thread in its loop, and delivers nothing before a Reconfigure |
| WebSocketFrames.LengthIsShortest | src/ui/src/ws_client.cpp:204-213 | no length field that reads as n is shorter than the one written |
| WebSocketFrames.LengthFieldBytes | src/ui/src/ws_client.cpp:202-212 | one byte up to 125, two more in network order up to 65535, eight more beyond |
| WebSocketFrames.ClientFrameReads | src/app/src/ws_server.cpp:288-330 | a client frame at the front of the buffer reads as its payload |
| WebSocketFrames.ClientFrameBytes | src/ui/src/ws_client.cpp:194-215 | first byte 0x81, mask bit, length, mask in clear, and byte i under mask byte i mod 4 |
| WebSocketFrames.ServerFrameBytes | src/app/src/ws_server.cpp:332-351 | first byte 0x81, length without mask bit, text in clear |
| WebSocketFrames.AnyFrameReads | src/app/src/ws_server.cpp:288-330 | masked or not: opcode 8 closes the connection, any other frame reads as its payload, as text exactly for opcode 1, whatever the bits above |
| WebSocketFrames.HugeLengthWraps | src/app/src/ws_server.cpp:298-328 | a frame size past 2^64 wraps: once that many bytes are there a close frame is taken and any other is impossible |
| WebSocketFrames.ClientReadsAnyFrame | src/ui/src/ws_client.cpp:219-254 | the client takes any frame but a close frame as a message, masked or not |
| WebSocketFrames.ParseIsStable | src/app/src/ws_server.cpp:288-330 | later bytes do not change a frame that was complete |
| WebSocketFrames.ServerStreamReads | src/ui/src/ws_client.cpp:219-254 | the client reads exactly the nonempty texts the server sent |
| WsClients.SendFrame | src/ui/src/ws_client.cpp:194-215 | the loops build the masked text frame |
| WsClients.Socket.RecvFrame | src/ui/src/ws_client.cpp:219-254 | byte-by-byte reading of one frame, or failure at the end of the stream or a close frame |
| WsServers.Connection.RecvFrame | src/app/src/ws_server.cpp:288-330 | what is taken from the buffer, with the 64-bit wrap of the size check |
| WsServers.Connection.HandleRead | src/app/src/ws_server.cpp:199-228 | the drain loop hands over every complete text frame and stops at the first other one |
| WsServers.FrontFrame | src/app/src/ws_server.cpp:216-227 | a text frame is handed over and draining goes on, a close frame ends the connection, any other frame is dropped and ends the draining |
| WsServers.SendText | src/app/src/ws_server.cpp:332-351 | the unmasked text frame; nothing for an empty text |
| WsServers.ChunksDoNotMatter | src/app/src/ws_server.cpp:199-228 | for a stream of text frames the cutting into reads does not matter |
| WsServers.ServerReadsWhatClientSent | src/app/src/ws_server.cpp:216-227 | any messages, masks and reads: the handler got exactly the payloads of the complete frames and the buffer holds exactly the unfinished one |
| WsServers.ServerReadsEverything | src/app/src/ws_server.cpp:216-227 | when everything arrived nothing is left over |
| WsServers.TextBehindPingStalls | src/app/src/ws_server.cpp:218-227 | a text frame behind a ping is left in the buffer if both arrive in one read of at most 4096 bytes, and handled if they arrive in two |
| WsCuttings.CuttingMattersExactlyWhenCrowded | src/app/src/ws_server.cpp:199-228 | for reads of at most any given size (4096 in the code): the handler gets the same messages for every cutting of a stream exactly when from no frame on, itself included, more frames neither text nor close have text behind them than full reads fit into the bytes behind that frame |
| WsCuttings.CuttingMattersExactlyBehindOther | src/app/src/ws_server.cpp:199-228 | for a nonempty stream no longer than one read: exactly when no complete text frame follows a complete frame neither text nor close with no close frame before it |
| WsCuttings.TextBehindPingCanStallIff | src/app/src/ws_server.cpp:199-228 | a text frame behind a ping is handed over by every cutting exactly when it is at least as long as a full read |
| WsCuttings.EveryCuttingLiesBetween | src/app/src/ws_server.cpp:199-228 | any cutting hands over at least what one read of everything gives and at most every text frame before the first close frame |
| WsCuttings.BytewiseIsSkim | src/app/src/ws_server.cpp:216-227 | read byte by byte, every text frame before the first close frame is handed over |
| Base64.Base64 | src/app/src/ws_server.cpp:78-92 | the loop, which the client repeats at src/ui/src/ws_client.cpp lines 140-154 |
| Base64.LetterFromTable | src/app/src/ws_server.cpp:78-92 | the letters are those of the standard's table, in its order |
| Base64.EncodeDecodes | src/app/src/ws_server.cpp:78-92 | four characters per three bytes begun, and a decoder written from RFC 4648 returns the same bytes |
| Base64.PaddingByLength | src/ui/src/ws_client.cpp:140-154 | exactly the positions that are padding; all others are alphabet characters |
| NmeaSentences.ComputeChecksum | src/io/include/falconguide/io/nmea/nmea_sentence.hpp:25-31 | exclusive or of all bytes |
| Bytes.BitOfXor | src/io/include/falconguide/io/nmea/nmea_sentence.hpp:25-31 | each of the eight bits of an exclusive or is one exactly when the two bits differ |
| NmeaSentences.ChecksumOfParts | src/io/include/falconguide/io/nmea/nmea_sentence.hpp:25-31 | one byte is its own checksum, and that of two texts is the exclusive or of theirs |
| NmeaSentences.ParseHexByte | src/io/include/falconguide/io/nmea/nmea_sentence.hpp:41-60 | two hexadecimal digits of either case |
| NmeaSentences.BuildSentence | src/io/include/falconguide/io/nmea/nmea_sentence.hpp:112-122 | the payload loop, framed with its checksum |
| NmeaSentences.FramingCharacters | src/io/include/falconguide/io/nmea/nmea_sentence.hpp:63-122 | dollar, star, comma and the two line ends are those characters |
| NmeaSentences.ChecksumDigits | src/io/include/falconguide/io/nmea/nmea_sentence.hpp:33-60 | the checksum is written as two upper-case digits, the higher first, and reads back |
| NmeaSentences.ParseSentence | src/io/include/falconguide/io/nmea/nmea_sentence.hpp:63-109 | every rejection, and the field loop |
| NmeaSentences.EndingDoesNotMatter | src/io/include/falconguide/io/nmea/nmea_sentence.hpp:63-72 | any line ends behind a long enough line change nothing |
| NmeaSentences.BuildParses | src/io/include/falconguide/io/nmea/nmea_sentence.hpp:63-122 | building then parsing gives the sentence back exactly when it is well formed |
| NmeaSentences.RebuiltLine | src/io/include/falconguide/io/nmea/nmea_sentence.hpp:63-122 | rebuilding an accepted line gives it without its ending and with an upper-case checksum |
| NmeaSentences.OneReplacedCharacterIsNoticed | src/io/include/falconguide/io/nmea/nmea_sentence.hpp:25-109 | replacing any one character of a well-formed line gives rejection or, for the case of a checksum digit only, the same sentence |

## Left out

- Floating point: all arithmetic is on exact reals; normalising a unit quaternion or symmetrising a symmetric matrix then changes nothing.
- EkfUpdates.EkfUpdate: takes the inverse of the innovation covariance as part of the measurement, with its defining equations as a requirement; Eigen's factorisations and a singular innovation covariance are not modelled.
- GnssTightlyCoupled.ScalarUpdate: compares the squared innovation with the squared gate times the variance, so no square root is needed; for the positive gate tested there both comparisons agree.
- GnssTightlyCoupled.ApplySatellite: takes the two rows, their innovations and sigmas as given, as Apply does.
- GnssTightlyCoupled.Apply: takes each satellite's row, innovation and noise as given; line of sight, Sagnac correction and carrier frequencies are not modelled.
- Ukf.GenerateSigmaPoints: takes the Cholesky factor as an argument; the regularising retry after a failed factorisation is not modelled.
- Ukf.ApplyMeasurement: takes innovations and deviations as vectors; the injection of the attitude by the exponential map is not modelled.
- Ukf.UnscentedIsKalman: covers additive states; the attitude part of a sigma point is not modelled.
- Ukf.PropagatePoints: covers additive states; the quaternion mean and the strapdown motion of the attitude are not modelled.
- Ukf.UnscentedPredictionIsKalman: covers affine motion of additive states; what the transform makes of other motion is not claimed.
- EkfStacked.BlocksAreOneUpdateIff: asks for an invertible P and a positive definite noise covariance of each block, since the stacked update is compared by information; a block with singular noise is not covered.
- ImuPreintegrators.Preintegrator.Reset: leaves out the 9 x 9 covariance and the noise parameters.
- ImuPreintegrators.Preintegrator.Finalize: leaves out the covariance of the factor.
- ImuPreintegrators.Preintegrator.Integrate: keeps deltas, Jacobians and bias as one record each instead of one field per matrix, and leaves out the 9 x 9 covariance, which feeds only the weight of the residual; that weight is the positive parameter `scale`. The gyroscope Jacobians are computed as the code does, but no accuracy of them is claimed: they are first-order.
- CeresWindows.SlidingWindow.AddGnss: takes the fix in the local frame as an argument; the distance is compared squared.
- CeresWindows.SlidingWindow.InitFromGnss: takes the first attitude, which the original levels by the buffered forces, as an argument.
- CeresWindows.SlidingWindow.CreateKeyframe: the solver, its loss functions and the satellite and bias residuals are an arbitrary result.
- EkfPropagation.Propagator.PropagateTo: requires a positive maximum step, without which the loop of the original does not end; the covariance part is in EkfUpdates.RunKeepsCovariance.
- EkfProtocol.AddMeasurement: models what each measurement model does to the error state and covariance; the loosely coupled model's own update, the choice of the model and the correction of the nominal state are not modelled, and injection only clears the error state.
- EstimatorPipelines.EveryRunIsSafe: two controllers that stop at the same time are not modelled.
- EstimatorPipelines.StopCanReturn: delivering is one step there that always ends; the observers that a delivery calls, and the mutexes they wait for, are part of the session.
- Sessions.RunKeepsInvariant: one lifecycle command is under way at a time, so a `pause` that overlaps a Stop is not in any run; measurements are counted, replay timing is left out, and a Reconfigure that destroys the local socket's server while the replay thread announces its end is taken to end the process.
- Sessions.EverySessionIsSafe: has the same limit of one lifecycle command at a time.
- Sessions.StopReturns: spurious wake-ups and rounds of a server without work may go on for ever and are not counted.
- SessionRestarts.StartReturnsExactlyWhenJoined: a WebSocket server left to be joined is taken to bind its port again, so that starting it assigns over its thread.
- WsServers.Connection.HandleRead: the HTTP upgrade and the replies to messages are not modelled.
- WsServers.Connection.RecvFrame: the reply to a close frame is not modelled; a size of 2^64 or more, for which the original's resize throws, is reported as a failure.
- WsClients.SendFrame: the random mask is an argument and the socket a byte string.
- Base64.Base64: the alphabet is given by its ranges instead of the literal; the two copies in the original differ only in names and are modelled once.
- SHA-1, JSON, configuration, logging, the user interface, dataset reading and the remaining sensor models: they would add only members that repeat a body.
