/** The calls the core makes on its collaborators that change something outside it: the world,
    the conditions provider, the persisted iteration store and the training aggregator
    (`bootstrap`). The core's behaviour is the sequence of these it issues. */
module Effects {
  import opened Wrappers
  import opened Types

  /** A data file handed to `bootstrap.add_data`: the samples file of an iteration, or a file of the
      external bootstrap dataset. */
  datatype DataFile = ItrSamples(itr: int) | InitFile(path: string)

  datatype Event =
    | ResetConditions                                  // conditions.reset()
    | ResetWorld(itr: int, cond: nat, rep: nat)        // self._reset_world(itr, cond, rep)
    | SaveSamples(itr: int, samples: seq<seq<Step>>)   // self._itr_save_samples(itr, samples)
    | SaveWorlds(itr: int, worldInfos: seq<WorldInfo>) // self._itr_save_worlds(itr, world_infos)
    | SaveMpcs(itr: int, mpcInfos: seq<MpcInfo>)       // self._itr_save_mpcs(itr, mpc_infos)
    | LoadModel(ckpt: int)                             // bootstrap.load(model_file=_itr_model_file(ckpt))
    | AddData(files: seq<DataFile>)                    // bootstrap.add_data(files)
    | Train(oldModel: Option<int>, newModel: int, epochs: nat)   // bootstrap.train(old_model_file, new_model_file, epochs)
}
