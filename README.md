# Python3_AP_Library in Dafny

A verified model of the sequential logic of a small Python autopilot library:

- the two-state altitude Kalman filter, with its Maple-generated gain;
- the configuration and calibration file readers;
- the u-blox UBX receive path, for NAV-PVT;
- the PID controller;
- the alpha-beta tracker;
- the MS5805 barometer compensation;
- the Honeywell SSC pressure conversion.

Bus reads, file contents and clock readings are parameters. All arithmetic is exact `real` arithmetic.

One Dafny module models each source file:

| file | module | source |
|---|---|---|
| `common.dfy` | `Common` | `Byte`, `Result`, `Option` |
| `kalman_altitude.dfy` | `KalmanAltitude` | Kalman_Altitude.py |
| `read_config.dfy` | `ReadConfig` | Read_Config.py |
| `ublox_gps.dfy` | `UbloxGps` | UbloxGPS.py |
| `pid.dfy` | `PidControl` | PID.py |
| `alpha_beta_filter.dfy` | `AlphaBetaFilter` | Alpha_Beta_Filter.py |
| `ms5805.dfy` | `Ms5805` | MS5805.py |
| `ssc005d.dfy` | `Ssc005d` | SSC005D.py |

Each module has the same layout:

1. A value datatype holds the object's state.
2. Pure functions state what each operation computes, and lemmas relate them.
3. A class with the source's fields has methods that update those fields in place. Each method is proved against the pure functions.

Errors that stop the Python program are `Err` results:

- `sys.exit` with its message;
- ZeroDivisionError;
- ValueError;
- reading an attribute that was never set (the MS5805 coefficients before `initialize` and its results before a read, the SSC reading, the PID I_TERM, the calibration values).

The Kalman filter needs a non-zero gain denominator, which is a precondition.

Points where the model follows the code closely:

- The Kalman gain keeps Maple's temporaries expression by expression. It is not rewritten as the textbook `P Hᵀ (H P Hᵀ + R)⁻¹`. The lemmas show what those expressions amount to: the correction `x + K (z - H x)`, covariance `(I - K H) P`, a gain of zero when every channel is gated off, the scalar gain `p1 / (p1 + rj)` when altitude channel j alone is active (and `p4 / (p4 + r4)` for the velocity channel), and a prediction of `F x` and `F P Fᵀ + Q`.
- The configuration file's header comment shows `Pitch PID`; the reader accepts only exact lines such as `PITCH_PID\n`, and any other line stops the program.
- The section branches are tested in order 1..10. While section k is armed, a header line of an earlier section j < k re-arms section j instead of being read as k's values. A header of a later section is read as k's values line (`EarlierHeaderPreempts`, `ValuesLine`).

Bit operations on Python integers are written as arithmetic:

- `x << n` is `x * 2^n`;
- `|` of bytes that do not overlap is `+`;
- `& 0x3fff` of a non-negative value is `% 0x4000`.

## Model

| member | source | states |
|---|---|---|
| KalmanAltitude.AltKalman.constructor | Kalman_Altitude.py:47-66 | p (row-major), q, r and x are stored unchanged in p1..p4, q1..q2, r1..r4, x1..x2 |
| KalmanAltitude.AltKalman.AltKf | Kalman_Altitude.py:69-177 | returns the corrected estimate; stores F·xest and F·Pest·Fᵀ + Q; new x1 = xest1 + dt·xest2 and new x2 = xest2; q and r are unchanged; requires the gain denominator t15 to be non-zero |
| KalmanAltitude.EstimateIsCorrection | Kalman_Altitude.py:130-132 | the estimate is x + K·innovation; channels 1-3 observe x1 and channel 4 observes x2 |
| KalmanAltitude.EstimatedCovarianceIsUpdate | Kalman_Altitude.py:134-138 | pest1..pest4 are the entries of (I − K·H)·P |
| KalmanAltitude.ZeroGateCoasts | Kalman_Altitude.py:83-138 | with h = 0 the denominator is r1·r2·r3·r4; when it is non-zero, all eight gains are 0, the estimate is the stored state and Pest = P |
| KalmanAltitude.PredictionIsTransition | Kalman_Altitude.py:140-149 | the stored next state is F·xest: xpred2 = xest2 and xpred1 = xest1 + dt·xest2 |
| KalmanAltitude.CovariancePredictionAlgebra | Kalman_Altitude.py:151-167 | the Maple temporaries of the covariance prediction give ppred4 = pest4 + q2, ppred3 = pest3 + dt·pest4, ppred2 = pest2 + dt·pest4 and ppred1 = pest1 + q1 + dt·(pest2 + pest3 + dt·pest4) |
| KalmanAltitude.CovariancePredictionEntries | Kalman_Altitude.py:151-167 | the same four entry identities for the filter's own covariance prediction |
| KalmanAltitude.CovariancePredictionIsTransition | Kalman_Altitude.py:134-167 | the stored next covariance is F·Pest·Fᵀ + diag(q1, q2) |
| KalmanAltitude.ZeroStepIsStationary | Kalman_Altitude.py:145-167 | with dt = 0 the stored state is the returned estimate, and the covariance is Pest + Q |
| KalmanAltitude.SingleAltitudeChannelDenominator | Kalman_Altitude.py:83-101 | with only channel 1 active the denominator is r2·r3·r4·(p1 + r1) |
| KalmanAltitude.SingleAltitudeChannelGain | Kalman_Altitude.py:83-128 | with only channel 1 active the gains are ksim1 = p1/(p1 + r1) and ksim5 = p3/(p1 + r1), and every other gain is 0 |
| KalmanAltitude.SecondAltitudeChannelGain | Kalman_Altitude.py:83-128 | with only channel 2 active the gains are ksim2 = p1/(p1 + r2) and ksim6 = p3/(p1 + r2), and every other gain is 0 |
| KalmanAltitude.ThirdAltitudeChannelGain | Kalman_Altitude.py:83-128 | with only channel 3 active the gains are ksim3 = p1/(p1 + r3) and ksim7 = p3/(p1 + r3), and every other gain is 0 |
| KalmanAltitude.SingleVelocityChannelGain | Kalman_Altitude.py:83-128 | with only channel 4 active the gains are ksim4 = p2/(p4 + r4) and ksim8 = p4/(p4 + r4), and every other gain is 0 |
| KalmanAltitude.SingleAltitudeChannelEstimate | Kalman_Altitude.py:83-132 | with only channel 1 active the estimate moves x1 by p1/(p1 + r1) and x2 by p3/(p1 + r1) of the innovation z1 − x1 |
| KalmanAltitude.UnitCovarianceGain | Kalman_Altitude.py:83-128 | P = I, r = 0.5 on every channel, h = (1,0,0,0): the denominator is 0.1875, ksim1 = 2/3 and ksim5 = 0 |
| KalmanAltitude.UnitCovarianceEstimate | Kalman_Altitude.py:83-132 | the same setting with x = 0 and z1 = 10: the estimate is (20/3, 0) |
| ReadConfig.Split | Read_Config.py:105 | `line.split()` yields non-empty tokens without whitespace |
| ReadConfig.SplitLine | Read_Config.py:105 | splitting tokens joined by single spaces and ended by a newline gives the tokens back |
| ReadConfig.ParseNumbers | Read_Config.py:105 | the float list has one value per token, each float() of its token; otherwise the error is the first token that float() rejects |
| ReadConfig.Branch | Read_Config.py:103-252 | the branch taken is the first section whose header the line is, or which is armed; no earlier section qualifies |
| ReadConfig.HeadersDistinct | Read_Config.py:103-241 | the ten header lines are different strings |
| ReadConfig.SkippedLineKeepsReader | Read_Config.py:98-99 | a line starting with '#', or equal to "\n", changes neither the flag nor any value, even between a header and its values |
| ReadConfig.HeaderArms | Read_Config.py:103-252 | with flag 0, header k sets flag k and assigns nothing |
| ReadConfig.EarlierHeaderPreempts | Read_Config.py:103-252 | while section k is armed, the header of an earlier section j re-arms j |
| ReadConfig.ValuesLine | Read_Config.py:103-252 | while k is armed, the next other line is k's values line: the right count assigns the values and resets flag to 0; the wrong count exits with k's message; a bad number raises ValueError |
| ReadConfig.UnknownLine | Read_Config.py:254-255 | with flag 0, a line that is not skipped exits with 'Unknown error reading configuration file!' exactly when it is no header |
| ReadConfig.AssignOrder | Read_Config.py:103-252 | pitch, roll and yaw take their values in the order p, d, i, il and PWM_RANGE in the order min, max; each section's numbers read back in the order of its values line; every other section is left as it was; a repeated section overwrites the earlier one |
| ReadConfig.FlagInRange | Read_Config.py:96-255 | the flag stays in 0..10 |
| ReadConfig.SectionReadsValues | Read_Config.py:96-255 | a header followed by a values line with the right count leaves that section's values set and flag 0 |
| ReadConfig.ConsumeLinesStops | Read_Config.py:96-255 | the first failing line ends the whole read with its error |
| ReadConfig.CalibrationPositions | Read_Config.py:260-287 | the calibration read succeeds exactly when the file opens, every token is a number float() accepts, and there are at least 25; the 17 fields cmax_r, cmax_p, cmax_dy, cdead_band, rcn, pcn, ycn, tmin, rm, rbl, rbh, pm, pbl, pbh, ym, ybl and ybh are the numbers at positions 0..5, 7, 10 and 16..24 in that order; every failure exits with the 'No calibration file found' message |
| ReadConfig.CalibrationIgnoresUnused | Read_Config.py:265-282 | for files whose every token parses, the numbers at the unused positions 6, 8, 9, 11..15 and from 25 on do not affect the result |
| ReadConfig.MagnetometerPositions | Read_Config.py:298-311 | the magnetometer read succeeds exactly when the file opens, every token is a number float() accepts, and there are at least 3, which become hix, hiy and hiz; otherwise it exits with its message |
| ReadConfig.CheckPassesIffMatching | Read_Config.py:289-296 | with all values set, the check passes exactly when max_p, max_r, max_dy and dead_band equal their calibration counterparts; otherwise it exits with the mismatch message |
| ReadConfig.ReadConfigFile.constructor | Read_Config.py:87-91 | stores the three file names; flag is 0 and nothing has been read |
| ReadConfig.ReadConfigFile.ReadConfigurationFile | Read_Config.py:93-258 | the line loop: on success the flag and values are those of the line-by-line function; on failure it returns that function's error |
| ReadConfig.ReadConfigFile.ReadCalibrationFile | Read_Config.py:260-287 | stores the calibration read, or returns its exit |
| ReadConfig.ReadConfigFile.ReadMagnetometerFile | Read_Config.py:298-311 | stores the magnetometer offsets, or returns its exit |
| ReadConfig.ReadConfigFile.CalibrationCheck | Read_Config.py:289-296 | passes exactly when both files were read and max_p, max_r, max_dy and dead_band equal their calibration counterparts; otherwise the error is a missing attribute or the mismatch exit, and the mismatch exit whenever every value is present; the order of the tests is that of the source; nothing changes |
| UbloxGps.Recognise | UbloxGPS.py:202-223 | the recogniser state stays in 0..3; only state 3 returns a non-zero id |
| UbloxGps.SyncTransitions | UbloxGPS.py:202-223 | 0xB5 moves state 0 to 1, 0x62 moves 1 to 2, any byte moves 2 to 3, and state 3 returns the byte as the id and goes back to 0; every other pair goes to 0; these are the only ways to reach each state; the byte is stored in slot state−1, and in slot 3 for the id |
| UbloxGps.HeaderYieldsId | UbloxGPS.py:202-223 | B5 62 class id from state 0 returns id and ends in state 0 |
| UbloxGps.RepeatedSyncCharMisses | UbloxGPS.py:203-221 | B5 B5 62 from state 0 ends in state 0 without an id |
| UbloxGps.ReadLengthFits | UbloxGPS.py:161-185 | exactly the ids 0x02, 0x03, 0x07 and 0x12 select a read, and every read length is positive and fits in the 100-byte buffer after the 4 header bytes |
| UbloxGps.Fill | UbloxGPS.py:167-170 | the read bytes land at indices 4.. and nothing else changes |
| UbloxGps.Uint16LE | UbloxGPS.py:230 | an H field lies in [0, 2^16) |
| UbloxGps.Uint32LE | UbloxGPS.py:230 | an I field lies in [0, 2^32) |
| UbloxGps.Int32LE | UbloxGPS.py:230 | an i field lies in [−2^31, 2^31), and it is negative exactly when the top byte is ≥ 0x80 |
| UbloxGps.Uint16RoundTrip | UbloxGPS.py:230 | decoding the little-endian bytes of an unsigned 16-bit value gives it back, and encoding a decoded H field gives its bytes back |
| UbloxGps.Uint32RoundTrip | UbloxGPS.py:230 | decoding the little-endian bytes of an unsigned 32-bit value gives it back |
| UbloxGps.Uint32BytesRoundTrip | UbloxGPS.py:230 | encoding a decoded I field gives its bytes back |
| UbloxGps.Int32RoundTrip | UbloxGPS.py:230 | decoding the two's-complement bytes of a signed 32-bit value gives it back |
| UbloxGps.Int32BytesRoundTrip | UbloxGPS.py:230 | encoding a decoded i field gives its bytes back |
| UbloxGps.Unpack | UbloxGPS.py:230 | the unpack yields one value per format code |
| UbloxGps.PvtLayout | UbloxGPS.py:229-230 | the format has 45 valid codes and consumes exactly 100 bytes; fixType is at 26, numSV at 29, lon at 30, lat at 34, height at 38, hMSL at 42, hAcc at 46, vAcc at 50, velN/E/D at 54/58/62, headMot at 70, sAcc at 74 and pDOP at 82 |
| UbloxGps.DecodePvt | UbloxGPS.py:228-245 | with id 0x07, each of the 14 outputs is its little-endian field times its scale constant; stat and nsat are the raw bytes 26 and 29 |
| UbloxGps.DecodeOtherMessage | UbloxGPS.py:246-260 | with any other id, all 14 outputs are 0 |
| UbloxGps.LatitudeRoundTrip | UbloxGPS.py:230-231 | a latitude written into bytes 34..37 decodes to that value times 1e-7 |
| UbloxGps.Ublox.constructor | UbloxGPS.py:43-45 | the recogniser is idle and nothing has been decoded |
| UbloxGps.Ublox.MessageType | UbloxGPS.py:202-223 | the new state and the returned id are the recogniser's, and the byte is stored in its header slot |
| UbloxGps.Ublox.DecodeMessage | UbloxGPS.py:227-260 | the outputs become the decode of the buffer |
| UbloxGps.Ublox.ReceiveStep | UbloxGPS.py:157-198 | one loop pass: the bytes are read into the buffer from index 4; then either the recogniser runs on the last byte and a recognised id sets the read length, or the message is decoded, header bytes 0..3 are zeroed and the loop goes back to one-byte search; the loop's (flag, length) stays in its four allowed states |
| PidControl.ResetKeepsGains | PID.py:51-57 | reset zeroes error_sum, error_previous, t_previous, seed_flag and freeze, and sets first_time; kp, kd, ki, I_L and I_TERM are kept |
| PidControl.InitValid | PID.py:43-48 | a new controller is valid and has no I_TERM |
| PidControl.OperationsPreserveValid | PID.py:51-145 | every operation keeps the flags in {0,1} and keeps I_TERM set while a seed is pending |
| PidControl.ControlFails | PID.py:84-128 | control fails exactly when: I_TERM is unset on a first call; or on a later call, type 1 has dt = 0, the type is neither 1 nor 2, or a seed is due without I_TERM; a valid controller with a good type and dt never fails |
| PidControl.FirstCallReturnsIntegralTerm | PID.py:85-91 | the first call returns I_TERM, records t and clears first_time; nothing else changes |
| PidControl.OutputIsPid | PID.py:92-143 | a later call outputs kp·error + kd·D + I_TERM, with D the error rate for type 1 and dadt for type 2; it stores error_previous and t_previous; the gains, freeze and first_time are kept |
| PidControl.FrozenIntegratorHolds | PID.py:110-126 | with freeze = 1, error_sum and seed_flag are unchanged |
| PidControl.IntegratorAccumulates | PID.py:110-128 | unfrozen and with no seed due, error_sum grows by error·dt and I_TERM = ki·error_sum, or 0 when ki = 0 |
| PidControl.ZeroIntegralGainIsPd | PID.py:118-139 | with ki = 0 the output is kp·error + kd·D |
| PidControl.SeedConsumed | PID.py:118-126 | a due seed keeps I_TERM, sets error_sum so that ki·error_sum = I_TERM, and clears seed_flag |
| PidControl.SeedIsBumpless | PID.py:60-139 | after seeding with v: the first call returns v, the second keeps I_TERM = v, and the third integrates from v |
| PidControl.Pid.constructor | PID.py:43-48 | stores the gains and I_L, then resets |
| PidControl.Pid.ResetController | PID.py:51-57 | the new state is the reset of the old one |
| PidControl.Pid.SeedController | PID.py:60-63 | resets, sets I_TERM to the seed and sets seed_flag |
| PidControl.Pid.SetFreeze | PID.py:66-67 | changes freeze only |
| PidControl.Pid.SetKp | PID.py:70-71 | changes kp only |
| PidControl.Pid.SetKd | PID.py:73-74 | changes kd only |
| PidControl.Pid.SetKi | PID.py:76-77 | changes ki only |
| PidControl.Pid.ControlOutput | PID.py:84-145 | the imperative control call returns the output of the control function and stores its next state; on an error it returns that error and changes nothing |
| AlphaBetaFilter.InitValid | Alpha_Beta_Filter.py:21-25 | a new tracker keeps its gains and starts warm-up validly |
| AlphaBetaFilter.ResetValid | Alpha_Beta_Filter.py:36-40 | reset sets first_time = 1, avg_count = 1 and xk_1 = vk_1 = 0, and keeps alpha and beta |
| AlphaBetaFilter.TrackPreservesValid | Alpha_Beta_Filter.py:43-69 | avg_count stays in [1, N_avg]; once warm-up ends it is N_avg; the gains are unchanged |
| AlphaBetaFilter.TrackFails | Alpha_Beta_Filter.py:53-63 | track fails exactly after warm-up with dt = 0 |
| AlphaBetaFilter.WarmUpStep | Alpha_Beta_Filter.py:45-52 | during warm-up each call adds xm/5 to the position, returns the stored velocity and ignores dt |
| AlphaBetaFilter.WarmUpAccumulates | Alpha_Beta_Filter.py:45-52 | m warm-up calls add their sum/5 to the position; warm-up ends exactly when 5 samples have been taken |
| AlphaBetaFilter.WarmUpAverages | Alpha_Beta_Filter.py:43-52 | five calls after a reset end warm-up with the mean of the five measurements and zero velocity |
| AlphaBetaFilter.TrackingStep | Alpha_Beta_Filter.py:53-67 | after warm-up: xk = p + alpha·(xm − p) and (vk − vk_1)·dt = beta·(xm − p), with p = xk_1 + vk_1·dt; both are stored |
| AlphaBetaFilter.UnitAlphaFollowsMeasurement | Alpha_Beta_Filter.py:62 | with alpha = 1 the position output is the measurement |
| AlphaBetaFilter.ZeroGainsCoast | Alpha_Beta_Filter.py:53-67 | with both gains 0 the tracker coasts at constant velocity |
| AlphaBetaFilter.Trackfilt.constructor | Alpha_Beta_Filter.py:21-25 | stores the gains, sets N_avg = 5 and resets |
| AlphaBetaFilter.Trackfilt.SetAlpha | Alpha_Beta_Filter.py:28-29 | changes alpha only |
| AlphaBetaFilter.Trackfilt.SetBeta | Alpha_Beta_Filter.py:32-33 | changes beta only |
| AlphaBetaFilter.Trackfilt.ResetFilter | Alpha_Beta_Filter.py:36-40 | the new state is the reset of the old one |
| AlphaBetaFilter.Trackfilt.TrackMeasurement | Alpha_Beta_Filter.py:43-69 | the imperative track call returns the estimate of the track function and stores its next state; on an error nothing changes |
| Ms5805.CalibrationWord | MS5805.py:51-60 | a calibration word lies in [0, 65535], and its high and low bytes are recovered from it |
| Ms5805.AdcWord | MS5805.py:73-79 | an ADC reading lies in [0, 2^24), and its three bytes are recovered from it |
| Ms5805.CorrectionsNonNegative | MS5805.py:92-95 | T2, OFF2 and SENS2 are never negative |
| Ms5805.WarmMeasurementIsFirstOrder | MS5805.py:88-103 | at temp ≥ 2000 the result uses the first-order temp, OFF and SENS |
| Ms5805.ColdTemperatureLowered | MS5805.py:92-99 | below 2000 the corrections can only lower temp, OFF and SENS |
| Ms5805.PressureAffineInD1 | MS5805.py:102 | PRESS = D1·SENS/(2^21·2^15·100) − OFF/(2^15·100) |
| Ms5805.PressureIncreasingInD1 | MS5805.py:102-103 | with positive SENS, PRESS increases strictly in D1, and TEMP does not depend on D1 |
| Ms5805.DegreesFRoundTrip | MS5805.py:106-107 | the Celsius value is recovered from degF |
| Ms5805.PsfMonotone | MS5805.py:116-117 | the psf conversion preserves order |
| Ms5805.Sensor.constructor | MS5805.py:31-32 | stores the address; no PROM or measurement is held yet |
| Ms5805.Sensor.Initialize | MS5805.py:47-66 | C1..C5 are the big-endian words of the five PROM reads, and C6 = 27058 |
| Ms5805.Sensor.ReadPressureTemperature | MS5805.py:70-103 | PRESS and TEMP are the compensation of the 24-bit readings D1 and D2; before `initialize` it fails and stores nothing |
| Ms5805.Sensor.TemperatureDegF | MS5805.py:106-107 | defined exactly after a measurement; converting the result back to Celsius gives TEMP |
| Ms5805.Sensor.TemperatureDegC | MS5805.py:109-110 | defined exactly after a measurement; its Fahrenheit conversion is what the degF getter returns |
| Ms5805.Sensor.PressureMbar | MS5805.py:113-114 | defined exactly after a measurement; its psf conversion is what the psf getter returns |
| Ms5805.Sensor.PressurePsf | MS5805.py:116-117 | defined exactly after a measurement; dividing the result by 2.0885434273 gives PRESS |
| Ssc005d.RawPressure | SSC005D.py:39-47 | pdata lies in [0, 16383] and equals (b0 mod 64)·256 + b1 |
| Ssc005d.MaskKeepsLowBits | SSC005D.py:45-47 | masking with 0x3fff keeps the low six bits of b0 and all of b1 |
| Ssc005d.StatusBitsIgnored | SSC005D.py:42-47 | the two status bits of b0 never affect pdata |
| Ssc005d.ConvertPressureFails | SSC005D.py:50-63 | the conversion fails exactly when calRange is outside 1..4 |
| Ssc005d.ConvertPressureRoundTrip | SSC005D.py:50-63 | for sensRange ≠ 0 the raw reading is recovered from the pressure, in every range |
| Ssc005d.ConvertPressureIncreasing | SSC005D.py:51-61 | for sensRange > 0 the pressure increases strictly in pdata, in every range |
| Ssc005d.Hwssc.constructor | SSC005D.py:34-36 | stores the address; no reading is held yet |
| Ssc005d.Hwssc.ReadPressureRaw | SSC005D.py:39-48 | stores the masked 14-bit reading |
| Ssc005d.Hwssc.ConvertPressureReading | SSC005D.py:50-63 | succeeds exactly when a reading is stored and calRange is in 1..4; an unknown range fails first, whether or not a reading is stored; for sensRange ≠ 0 the stored reading is recovered from the pressure; the reading is unchanged |

## Left out

- All bus, file and clock I/O is out of the model: the SPI `xfer2` transfers, the I2C reads and writes, `open`/`read`, `time.sleep` and `time.time`. Bytes, lines, file text and the clock reading are parameters instead.
- The hard-coded UBX configuration messages, the GPS `initialize` that sends them, and the checksum bytes are not modelled; the code never computes or checks a checksum.
- The endless `while True` of `getMessages` is modelled one pass at a time (`UbloxGps.Ublox.ReceiveStep`). The loop's own variables are that method's parameters and results.
- Python's `float()` is the abstract parameter `toReal`: the text syntax of numbers, NaN and infinities are not modelled.
- IEEE-754 rounding, overflow and NaN are not modelled: all arithmetic is exact.
- `str.split()` is modelled with the fixed set of whitespace characters Python splits on. Unicode normalisation plays no part.
- Navigation.py (spherical trigonometry) and MB1242.py (a thin I2C wrapper) are not part of this model.
- The bus command constants of the sensor drivers and the `xpred1`, `xpred2`, `ppred1`..`ppred4` attributes of the Kalman filter are not modelled. Those attributes are copies of the stored prediction.
- That the Maple gain equals the textbook `P Hᵀ (H P Hᵀ + R)⁻¹` is proved only when exactly one channel is active: each of the four channels alone (`SingleAltitudeChannelGain`, `SecondAltitudeChannelGain`, `ThirdAltitudeChannelGain`, `SingleVelocityChannelGain`), not for several channels at once.
- Positive semi-definiteness of P is neither enforced nor checked by the code, and not modelled.
- PidControl.Pid.ControlOutput: when a call raises, the model leaves the controller unchanged. Python may already have written t_previous (first call without I_TERM) or error_sum (seed due without I_TERM) before the exception; the exception ends the program.
- KalmanAltitude.AltKalman.AltKf: the ZeroDivisionError that `t15=0.1e1/t15` raises when the gain denominator is zero is not an `Err` result; the model makes a non-zero denominator a precondition.
- ReadConfig.ReadConfigFile.ReadConfigurationFile: after an exit its state is not specified. Python has assigned the earlier sections' values when `sys.exit` ends the program.
- ReadConfig.ReadConfigFile.ReadCalibrationFile: on an exit the calibration is left as it was. Python may have assigned some fields before the failing index.
- UbloxGps.Ublox.constructor: it starts the recogniser at 0. Python sets typeFlag only when `getMessages` starts, so calling `messageType` before that raises.
